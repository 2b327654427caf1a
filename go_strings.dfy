/**
 * The Go library string operations that goDASH's parsers use, on strings of
 * characters: strings.Index / Contains / Replace / Split / Join / TrimLeft /
 * TrimRight / TrimSpace, strconv.Atoi / Itoa and path.Base. Separators are
 * single characters, as they are at every call site of the model.
 */
module GoStrings {
  import opened Wrappers

  /** `sub` occurs in `s` starting at position i. */
  predicate OccursAt<T(==)>(s: seq<T>, sub: seq<T>, i: int)
  {
    0 <= i && i + |sub| <= |s| && s[i..i + |sub|] == sub
  }

  lemma OccursAtTail<T>(s: seq<T>, sub: seq<T>, i: int)
    requires |s| > 0 && 1 <= i
    ensures OccursAt(s, sub, i) <==> OccursAt(s[1..], sub, i - 1)
  {
    if i + |sub| <= |s| {
      assert s[1..][i - 1..i - 1 + |sub|] == s[i..i + |sub|];
    }
  }

  /** Occurrences in the tail of a string are the occurrences past its first position. */
  lemma OccursInTail<T>(s: seq<T>, sub: seq<T>)
    requires |s| > 0
    ensures forall i :: 1 <= i ==> (OccursAt(s, sub, i) <==> OccursAt(s[1..], sub, i - 1))
  {
    forall i | 1 <= i ensures OccursAt(s, sub, i) <==> OccursAt(s[1..], sub, i - 1) {
      OccursAtTail(s, sub, i);
    }
  }

  /** strings.Index (and bytes.Index): the position of the first occurrence of `sub` in `s`, or -1. */
  function Index<T(==)>(s: seq<T>, sub: seq<T>): (r: int)
    ensures -1 <= r <= |s|
    ensures r >= 0 ==> r + |sub| <= |s|
    decreases |s|
  {
    if |s| < |sub| then -1
    else if sub <= s then 0
    else
      var k := Index(s[1..], sub);
      if k < 0 then -1 else k + 1
  }

  /** Index finds the first occurrence, and -1 means there is none. */
  lemma IndexFirst<T>(s: seq<T>, sub: seq<T>)
    ensures var r := Index(s, sub);
      (r >= 0 ==> OccursAt(s, sub, r) && forall i :: 0 <= i < r ==> !OccursAt(s, sub, i)) &&
      (r == -1 ==> forall i :: 0 <= i <= |s| ==> !OccursAt(s, sub, i))
  {
    IndexOccurs(s, sub);
    IndexNoEarlier(s, sub);
    IndexMissing(s, sub);
  }

  /** A sequence that does not start with `sub` has no occurrence at 0. */
  lemma NotPrefixNotAt0<T>(s: seq<T>, sub: seq<T>)
    requires !(sub <= s)
    ensures !OccursAt(s, sub, 0)
  {
    if |sub| <= |s| {
      assert s[0..|sub|] == s[..|sub|];
    }
  }

  lemma {:induction false} IndexOccurs<T>(s: seq<T>, sub: seq<T>)
    ensures Index(s, sub) >= 0 ==> OccursAt(s, sub, Index(s, sub))
    decreases |s|
  {
    if |s| >= |sub| && !(sub <= s) {
      IndexOccurs(s[1..], sub);
      var k := Index(s[1..], sub);
      if k >= 0 {
        OccursAtTail(s, sub, k + 1);
      }
    } else if sub <= s {
      assert s[0..|sub|] == sub;
    }
  }

  lemma {:induction false} IndexNoEarlier<T>(s: seq<T>, sub: seq<T>)
    ensures forall i :: 0 <= i < Index(s, sub) ==> !OccursAt(s, sub, i)
    decreases |s|
  {
    if |s| >= |sub| && !(sub <= s) {
      IndexNoEarlier(s[1..], sub);
      var k := Index(s[1..], sub);
      forall i | 0 <= i < Index(s, sub)
        ensures !OccursAt(s, sub, i)
      {
        if i == 0 {
          NotPrefixNotAt0(s, sub);
        } else {
          OccursAtTail(s, sub, i);
        }
      }
    }
  }

  lemma {:induction false} IndexMissing<T>(s: seq<T>, sub: seq<T>)
    ensures Index(s, sub) == -1 ==> forall i :: 0 <= i <= |s| ==> !OccursAt(s, sub, i)
    decreases |s|
  {
    if |s| >= |sub| && !(sub <= s) {
      IndexMissing(s[1..], sub);
      if Index(s, sub) == -1 {
        forall i | 0 <= i <= |s|
          ensures !OccursAt(s, sub, i)
        {
          if i == 0 {
            NotPrefixNotAt0(s, sub);
          } else {
            OccursAtTail(s, sub, i);
          }
        }
      }
    }
  }

  /** An occurrence with none before it is the one Index finds. */
  lemma IndexAt<T>(s: seq<T>, sub: seq<T>, i: int)
    requires OccursAt(s, sub, i) && forall j :: 0 <= j < i ==> !OccursAt(s, sub, j)
    ensures Index(s, sub) == i
  {
    IndexFirst(s, sub);
  }

  /** Without any occurrence, Index is -1. */
  lemma IndexNone<T>(s: seq<T>, sub: seq<T>)
    requires forall i :: 0 <= i <= |s| ==> !OccursAt(s, sub, i)
    ensures Index(s, sub) == -1
  {
    IndexFirst(s, sub);
  }

  /** strings.Contains */
  predicate Contains<T(==)>(s: seq<T>, sub: seq<T>)
  {
    Index(s, sub) >= 0
  }

  /**
   * strings.Replace(s, pat, rep, -1): every non-overlapping occurrence of
   * `pat`, scanning from the left, replaced by `rep`; the text before the
   * first occurrence is kept as it is. Every call site passes a non-empty
   * pattern.
   */
  function Replace(s: string, pat: string, rep: string): (r: string)
    requires |pat| > 0
    ensures Index(s, pat) == -1 ==> r == s
    decreases |s|
  {
    var k := Index(s, pat);
    if k < 0 then s else s[..k] + rep + Replace(s[k + |pat|..], pat, rep)
  }

  /**
   * strings.Split(s, sep) for a one-character separator: the pieces of `s`
   * between the separators; there is always at least one.
   */
  function Split(s: string, sep: char): (parts: seq<string>)
    ensures |parts| >= 1
    ensures forall k :: 0 <= k < |parts| ==> sep !in parts[k]
    ensures sep !in s ==> parts == [s]
  {
    if |s| == 0 then [""]
    else
      var rest := Split(s[1..], sep);
      if s[0] == sep then [""] + rest
      else
        assert sep !in s ==> rest == [s[1..]] && [s[0]] + s[1..] == s;
        [[s[0]] + rest[0]] + rest[1..]
  }

  /** strings.Join(parts, sep) for a one-character separator. */
  function Join(parts: seq<string>, sep: char): (s: string)
    ensures |parts| == 1 ==> s == parts[0]
  {
    if |parts| == 0 then ""
    else if |parts| == 1 then parts[0]
    else parts[0] + [sep] + Join(parts[1..], sep)
  }

  lemma {:induction false} SplitPrefix(a: string, rest: string, sep: char)
    requires sep !in a
    ensures Split(a + [sep] + rest, sep) == [a] + Split(rest, sep)
    decreases |a|
  {
    if |a| == 0 {
      assert a + [sep] + rest == [sep] + rest;
      assert ([sep] + rest)[1..] == rest;
    } else {
      var s := a + [sep] + rest;
      assert s[0] == a[0];
      assert s[1..] == a[1..] + [sep] + rest;
      SplitPrefix(a[1..], rest, sep);
      assert [a[0]] + a[1..] == a;
    }
  }

  /** Splitting what Join produced gives the parts back, when no part holds the separator. */
  lemma {:induction false} SplitJoin(parts: seq<string>, sep: char)
    requires |parts| >= 1
    requires forall k :: 0 <= k < |parts| ==> sep !in parts[k]
    ensures Split(Join(parts, sep), sep) == parts
    decreases |parts|
  {
    if |parts| > 1 {
      SplitJoin(parts[1..], sep);
      SplitPrefix(parts[0], Join(parts[1..], sep), sep);
    }
  }

  /** Joining the pieces of a split restores the string. */
  lemma {:induction false} JoinSplit(s: string, sep: char)
    ensures Join(Split(s, sep), sep) == s
    decreases |s|
  {
    if |s| > 0 {
      JoinSplit(s[1..], sep);
      if s[0] == sep {
        JoinSplitAtSeparator(s, sep);
      } else {
        JoinSplitAtOther(s, sep);
      }
    }
  }

  lemma JoinSplitAtSeparator(s: string, sep: char)
    requires |s| > 0 && s[0] == sep
    requires Join(Split(s[1..], sep), sep) == s[1..]
    ensures Join(Split(s, sep), sep) == s
  {
    var rest := Split(s[1..], sep);
    var parts := [""] + rest;
    assert Split(s, sep) == parts;
    assert parts[0] == "" && parts[1..] == rest;
    assert Join(parts, sep) == [sep] + s[1..];
    assert s == [sep] + s[1..];
  }

  lemma JoinSplitAtOther(s: string, sep: char)
    requires |s| > 0 && s[0] != sep
    requires Join(Split(s[1..], sep), sep) == s[1..]
    ensures Join(Split(s, sep), sep) == s
  {
    var rest := Split(s[1..], sep);
    var parts := [[s[0]] + rest[0]] + rest[1..];
    if |rest| == 1 {
      assert parts == [[s[0]] + rest[0]];
    } else {
      assert parts[1..] == rest[1..];
      assert Join(rest, sep) == rest[0] + [sep] + Join(rest[1..], sep);
    }
    assert s == [s[0]] + s[1..];
  }

  /** strings.TrimLeft(s, cutset): drops every leading character found in `cutset`. */
  function TrimLeft(s: string, cutset: string): (r: string)
    ensures |r| <= |s| && r == s[|s| - |r|..]
    ensures forall i :: 0 <= i < |s| - |r| ==> s[i] in cutset
    ensures |r| > 0 ==> r[0] !in cutset
  {
    if |s| > 0 && s[0] in cutset then TrimLeft(s[1..], cutset) else s
  }

  /** strings.TrimRight(s, cutset): drops every trailing character found in `cutset`. */
  function TrimRight(s: string, cutset: string): (r: string)
    ensures |r| <= |s| && r == s[..|r|]
    ensures forall i :: |r| <= i < |s| ==> s[i] in cutset
    ensures |r| > 0 ==> r[|r| - 1] !in cutset
  {
    if |s| > 0 && s[|s| - 1] in cutset then TrimRight(s[..|s| - 1], cutset) else s
  }

  /** unicode.IsSpace */
  predicate IsSpace(c: char)
  {
    c == ' ' || ('\t' <= c <= '\r') || c == '\U{0085}' || c == '\U{00A0}' || c == '\U{1680}'
    || ('\U{2000}' <= c <= '\U{200A}') || c == '\U{2028}' || c == '\U{2029}' || c == '\U{202F}'
    || c == '\U{205F}' || c == '\U{3000}'
  }

  function TrimLeftSpace(s: string): (r: string)
    ensures |r| <= |s| && r == s[|s| - |r|..]
    ensures forall i :: 0 <= i < |s| - |r| ==> IsSpace(s[i])
    ensures |r| > 0 ==> !IsSpace(r[0])
  {
    if |s| > 0 && IsSpace(s[0]) then TrimLeftSpace(s[1..]) else s
  }

  function TrimRightSpace(s: string): (r: string)
    ensures |r| <= |s| && r == s[..|r|]
    ensures forall i :: |r| <= i < |s| ==> IsSpace(s[i])
    ensures |r| > 0 ==> !IsSpace(r[|r| - 1])
  {
    if |s| > 0 && IsSpace(s[|s| - 1]) then TrimRightSpace(s[..|s| - 1]) else s
  }

  /** strings.TrimSpace */
  function TrimSpace(s: string): string
  {
    TrimRightSpace(TrimLeftSpace(s))
  }

  // ---- strconv

  predicate IsDigit(c: char) { '0' <= c <= '9' }

  predicate AllDigits(s: string) { forall i :: 0 <= i < |s| ==> IsDigit(s[i]) }

  function DigitsValue(s: string): nat
    requires AllDigits(s)
  {
    if |s| == 0 then 0 else DigitsValue(s[..|s| - 1]) * 10 + (s[|s| - 1] as int - '0' as int)
  }

  /**
   * strconv.Atoi: an optional sign followed by at least one decimal digit;
   * anything else is an error (None). The 64-bit range error is not modelled.
   */
  function Atoi(s: string): Option<int>
  {
    if |s| > 0 && (s[0] == '+' || s[0] == '-') then
      if |s| > 1 && AllDigits(s[1..]) then
        var v := DigitsValue(s[1..]) as int;
        Some(if s[0] == '-' then -v else v)
      else None
    else if |s| > 0 && AllDigits(s) then Some(DigitsValue(s))
    else None
  }

  function DigitChar(d: nat): char
    requires d < 10
  {
    ('0' as int + d) as char
  }

  function NatToString(n: nat): (s: string)
    ensures |s| > 0 && AllDigits(s)
  {
    if n < 10 then [DigitChar(n)] else NatToString(n / 10) + [DigitChar(n % 10)]
  }

  /** strconv.Itoa */
  function Itoa(n: int): string
  {
    if n < 0 then "-" + NatToString(-n) else NatToString(n)
  }

  lemma {:induction false} NatToStringValue(n: nat)
    ensures DigitsValue(NatToString(n)) == n
  {
    if n >= 10 {
      var s := NatToString(n);
      NatToStringValue(n / 10);
      assert s[..|s| - 1] == NatToString(n / 10);
    }
  }

  /** Atoi parses what Itoa prints. */
  lemma AtoiItoa(n: int)
    ensures Atoi(Itoa(n)) == Some(n)
  {
    if n < 0 {
      NatToStringValue(-n);
      assert Itoa(n)[1..] == NatToString(-n);
    } else {
      NatToStringValue(n);
    }
  }

  lemma ItoaShape(n: int)
    ensures |Itoa(n)| > 0
    ensures forall i :: 1 <= i < |Itoa(n)| ==> IsDigit(Itoa(n)[i])
    ensures IsDigit(Itoa(n)[0]) || Itoa(n)[0] == '-'
  {
  }

  // ---- path

  function TrimTrailingSlashes(p: string): (r: string)
    ensures r <= p
    ensures |r| > 0 ==> r[|r| - 1] != '/'
  {
    if |p| > 0 && p[|p| - 1] == '/' then TrimTrailingSlashes(p[..|p| - 1]) else p
  }

  /** The part of p after its last '/', or all of p when there is none. */
  function AfterLastSlash(p: string): (r: string)
    ensures '/' !in r
    ensures |r| <= |p| && r == p[|p| - |r|..]
    ensures |r| < |p| ==> p[|p| - |r| - 1] == '/'
  {
    if |p| == 0 then ""
    else if p[|p| - 1] == '/' then ""
    else AfterLastSlash(p[..|p| - 1]) + [p[|p| - 1]]
  }

  /**
   * path.Base: the last slash-separated element after trailing slashes are
   * removed; "." for the empty path and "/" for a path of slashes only.
   */
  function Base(p: string): (r: string)
    ensures |r| > 0
    ensures r == "/" || '/' !in r
  {
    if p == "" then "."
    else
      var e := AfterLastSlash(TrimTrailingSlashes(p));
      if e == "" then "/" else e
  }

  /** The base of `dir/name` is `name` when the name is non-empty and has no slash. */
  lemma BaseOfJoined(dir: string, name: string)
    requires |name| > 0 && '/' !in name
    ensures Base(dir + "/" + name) == name
  {
    var p := dir + "/" + name;
    assert p[|p| - 1] == name[|name| - 1];
    assert TrimTrailingSlashes(p) == p;
    AfterLastSlashOf(dir, name);
  }

  lemma {:induction false} AfterLastSlashOf(dir: string, name: string)
    requires '/' !in name
    ensures AfterLastSlash(dir + "/" + name) == name
    decreases |name|
  {
    var p := dir + "/" + name;
    if |name| == 0 {
      assert p[|p| - 1] == '/';
    } else {
      assert p[|p| - 1] == name[|name| - 1];
      assert p[..|p| - 1] == dir + "/" + name[..|name| - 1];
      AfterLastSlashOf(dir, name[..|name| - 1]);
    }
  }
}
