/**
 * The per-segment log record and the two pieces of logging/debug.go with
 * logic in them: the print-header switch `checkInputHeader` and the play-out
 * marking of `PrintPlayOutLog`. The text the source prints is not modelled;
 * the play-out log is the sequence of (segment, log index) rows it emits.
 */
module Debug {
  import opened Wrappers
  import CalcFunctions
  import GoNum

  /** The fields of SegPrintLogInformation that the model reads or writes. */
  datatype SegPrintLogInformation = SegPrintLogInformation(
    arrivalTime: int,
    deliveryTime: int,
    stallTime: int,
    bandwidth: int,
    delRate: int,
    actRate: int,
    segSize: int,
    bufferLevel: int,
    segmentDuration: int,
    playStartPosition: int,
    playbackTime: int,
    repIndex: int,
    mpdIndex: int,
    played: bool,
    numStalls: int,
    numSwitches: int)

  /** The zero value of the record, which a Go map returns for a missing key. */
  const ZeroLog := SegPrintLogInformation(0, 0, 0, 0, 0, 0, 0, 0, 0, 0, 0, 0, 0, false, 0, 0)

  /** `m[k]` on a Go map. */
  function Get(m: map<int, SegPrintLogInformation>, k: int): (e: SegPrintLogInformation)
    ensures k in m ==> e == m[k]
    ensures k !in m ==> e == ZeroLog
  {
    if k in m then m[k] else ZeroLog
  }

  // ---------------------------------------------------------------- checkInputHeader

  /** A header switch is on when its value is "on", "On" or "ON". */
  predicate SwitchedOn(printHeadersData: map<string, string>, key: string)
  {
    key in printHeadersData &&
    (printHeadersData[key] == "on" || printHeadersData[key] == "On" || printHeadersData[key] == "ON")
  }

  /**
   * checkInputHeader: appends the column's format when its header is switched
   * on and sets the column's value; otherwise appends "%s" and keeps the value.
   * `*extendPrintString` and `*val1` are the inputs and outputs here.
   */
  method CheckInputHeader(printHeadersData: map<string, string>, key: string, extendPrintString: string,
                          stringDuration: string, val1: string, val2: string)
    returns (newExtendPrintString: string, newVal1: string)
    ensures SwitchedOn(printHeadersData, key) ==>
      newExtendPrintString == extendPrintString + stringDuration && newVal1 == val2
    ensures !SwitchedOn(printHeadersData, key) ==>
      newExtendPrintString == extendPrintString + "%s" && newVal1 == val1
  {
    newExtendPrintString, newVal1 := extendPrintString, val1;
    if key in printHeadersData {
      var val := printHeadersData[key];
      if val == "on" || val == "On" || val == "ON" {
        newExtendPrintString := newExtendPrintString + stringDuration;
        newVal1 := val2;
      } else {
        newExtendPrintString := newExtendPrintString + "%s";
      }
    } else {
      newExtendPrintString := newExtendPrintString + "%s";
    }
  }

  // ---------------------------------------------------------------- PrintPlayOutLog

  /**
   * Segment k of a log is due at `currentTime` when that time has reached
   * the play start of segment k − 1 plus that of segment `initBuffer`, and k
   * has not been played.
   */
  predicate DueAt(m: map<int, SegPrintLogInformation>, k: int, currentTime: int, initBuffer: int)
  {
    currentTime >= Get(m, k - 1).playStartPosition + Get(m, initBuffer).playStartPosition && !Get(m, k).played
  }

  /** The log after the play-out loop has visited segments 1..upto of it. */
  function MarkUpTo(m: map<int, SegPrintLogInformation>, currentTime: int, initBuffer: int, upto: int)
    : map<int, SegPrintLogInformation>
    decreases upto
  {
    if upto <= 0 then m
    else
      var before := MarkUpTo(m, currentTime, initBuffer, upto - 1);
      if DueAt(before, upto, currentTime, initBuffer) then before[upto := Get(before, upto).(played := true)]
      else before
  }

  /**
   * The marking, in closed form: segment j in 1..upto that was due is now
   * played (inserted when missing), every other entry is as it was.
   */
  lemma {:induction false} MarkUpToEntries(m: map<int, SegPrintLogInformation>, currentTime: int, initBuffer: int,
                                           upto: int, j: int)
    ensures Get(MarkUpTo(m, currentTime, initBuffer, upto), j)
         == if 1 <= j <= upto && DueAt(m, j, currentTime, initBuffer) then Get(m, j).(played := true) else Get(m, j)
    ensures j in MarkUpTo(m, currentTime, initBuffer, upto) <==>
      j in m || (1 <= j <= upto && DueAt(m, j, currentTime, initBuffer))
    decreases upto
  {
    if upto > 0 {
      var before := MarkUpTo(m, currentTime, initBuffer, upto - 1);
      MarkUpToEntries(m, currentTime, initBuffer, upto - 1, j);
      MarkUpToEntries(m, currentTime, initBuffer, upto - 1, upto - 1);
      MarkUpToEntries(m, currentTime, initBuffer, upto - 1, initBuffer);
      MarkUpToEntries(m, currentTime, initBuffer, upto - 1, upto);
      assert DueAt(before, upto, currentTime, initBuffer) == DueAt(m, upto, currentTime, initBuffer);
    }
  }

  /** Marking never changes a play start, so it leaves the due test of later segments alone. */
  lemma MarkKeepsLaterDue(m: map<int, SegPrintLogInformation>, currentTime: int, initBuffer: int, upto: int, k: int)
    requires k > upto
    ensures DueAt(MarkUpTo(m, currentTime, initBuffer, upto), k, currentTime, initBuffer)
        == DueAt(m, k, currentTime, initBuffer)
  {
    MarkUpToEntries(m, currentTime, initBuffer, upto, k - 1);
    MarkUpToEntries(m, currentTime, initBuffer, upto, initBuffer);
    MarkUpToEntries(m, currentTime, initBuffer, upto, k);
  }

  /** Visiting segment k: the log so far is marked at k exactly when k is due in the original log. */
  lemma MarkStep(m: map<int, SegPrintLogInformation>, currentTime: int, initBuffer: int, k: int)
    requires k >= 1
    ensures var before := MarkUpTo(m, currentTime, initBuffer, k - 1);
      DueAt(before, k, currentTime, initBuffer) == DueAt(m, k, currentTime, initBuffer) &&
      MarkUpTo(m, currentTime, initBuffer, k) ==
        if DueAt(before, k, currentTime, initBuffer) then before[k := Get(before, k).(played := true)] else before
  {
    MarkKeepsLaterDue(m, currentTime, initBuffer, k - 1, k);
  }

  /** The marking loop leaves the keys of a log alone when segments 1..upto are all present. */
  lemma MarkKeepsKeys(m: map<int, SegPrintLogInformation>, currentTime: int, initBuffer: int, upto: int)
    requires forall j :: 1 <= j <= upto ==> j in m
    ensures MarkUpTo(m, currentTime, initBuffer, upto).Keys == m.Keys
  {
    forall j | j in MarkUpTo(m, currentTime, initBuffer, upto).Keys
      ensures j in m.Keys
    {
      MarkUpToEntries(m, currentTime, initBuffer, upto, j);
    }
    forall j | j in m.Keys
      ensures j in MarkUpTo(m, currentTime, initBuffer, upto).Keys
    {
      MarkUpToEntries(m, currentTime, initBuffer, upto, j);
    }
  }

  /** The rows emitted for segment k, logs 0..n−1 in order. */
  function RowDue(logs: seq<map<int, SegPrintLogInformation>>, k: int, n: nat, currentTime: int, initBuffer: int)
    : seq<(int, int)>
    requires n <= |logs|
  {
    if n == 0 then []
    else RowDue(logs, k, n - 1, currentTime, initBuffer)
         + (if DueAt(logs[n - 1], k, currentTime, initBuffer) then [(k, n - 1)] else [])
  }

  /** The rows emitted for segments 1..k, segment by segment. */
  function EmittedUpTo(logs: seq<map<int, SegPrintLogInformation>>, k: int, currentTime: int, initBuffer: int)
    : seq<(int, int)>
    decreases k
  {
    if k <= 0 then [] else EmittedUpTo(logs, k - 1, currentTime, initBuffer) + RowDue(logs, k, |logs|, currentTime, initBuffer)
  }

  lemma {:induction false} RowDueMembers(logs: seq<map<int, SegPrintLogInformation>>, k: int, n: nat,
                                         currentTime: int, initBuffer: int, p: (int, int))
    requires n <= |logs|
    ensures p in RowDue(logs, k, n, currentTime, initBuffer) <==>
      p.0 == k && 0 <= p.1 < n && DueAt(logs[p.1], k, currentTime, initBuffer)
  {
    if n > 0 {
      RowDueMembers(logs, k, n - 1, currentTime, initBuffer, p);
    }
  }

  /** A row (k, L) is emitted iff 1 <= k <= upto, L is a log index, and segment k of log L is due. */
  lemma {:induction false} EmittedMembers(logs: seq<map<int, SegPrintLogInformation>>, upto: int,
                                          currentTime: int, initBuffer: int, p: (int, int))
    ensures p in EmittedUpTo(logs, upto, currentTime, initBuffer) <==>
      1 <= p.0 <= upto && 0 <= p.1 < |logs| && DueAt(logs[p.1], p.0, currentTime, initBuffer)
    decreases upto
  {
    if upto > 0 {
      EmittedMembers(logs, upto - 1, currentTime, initBuffer, p);
      RowDueMembers(logs, upto, |logs|, currentTime, initBuffer, p);
    }
  }

  /** (k, L) before (k', L') in segment order, then log order. */
  predicate RowBefore(p: (int, int), q: (int, int))
  {
    p.0 < q.0 || (p.0 == q.0 && p.1 < q.1)
  }

  predicate InRowOrder(rows: seq<(int, int)>)
  {
    forall i, j :: 0 <= i < j < |rows| ==> RowBefore(rows[i], rows[j])
  }

  lemma {:induction false} RowDueOrdered(logs: seq<map<int, SegPrintLogInformation>>, k: int, n: nat,
                                         currentTime: int, initBuffer: int)
    requires n <= |logs|
    ensures InRowOrder(RowDue(logs, k, n, currentTime, initBuffer))
  {
    if n > 0 {
      RowDueOrdered(logs, k, n - 1, currentTime, initBuffer);
      var front := RowDue(logs, k, n - 1, currentTime, initBuffer);
      forall i | 0 <= i < |front|
        ensures RowBefore(front[i], (k, n - 1))
      {
        RowDueMembers(logs, k, n - 1, currentTime, initBuffer, front[i]);
      }
    }
  }

  /** The emitted rows are in segment order, then log order. */
  lemma {:induction false} EmittedOrdered(logs: seq<map<int, SegPrintLogInformation>>, upto: int,
                                          currentTime: int, initBuffer: int)
    ensures InRowOrder(EmittedUpTo(logs, upto, currentTime, initBuffer))
    decreases upto
  {
    if upto > 0 {
      EmittedOrdered(logs, upto - 1, currentTime, initBuffer);
      RowDueOrdered(logs, upto, |logs|, currentTime, initBuffer);
      var front := EmittedUpTo(logs, upto - 1, currentTime, initBuffer);
      var row := RowDue(logs, upto, |logs|, currentTime, initBuffer);
      EarlierRowsFirst(logs, upto, currentTime, initBuffer, front, row);
      ConcatInRowOrder(front, row);
    }
  }

  /** Every row of segments before `upto` comes before every row of segment `upto`. */
  lemma EarlierRowsFirst(logs: seq<map<int, SegPrintLogInformation>>, upto: int, currentTime: int, initBuffer: int,
                         front: seq<(int, int)>, row: seq<(int, int)>)
    requires front == EmittedUpTo(logs, upto - 1, currentTime, initBuffer)
    requires row == RowDue(logs, upto, |logs|, currentTime, initBuffer)
    ensures forall i, j :: 0 <= i < |front| && 0 <= j < |row| ==> RowBefore(front[i], row[j])
  {
    forall i, j | 0 <= i < |front| && 0 <= j < |row|
      ensures RowBefore(front[i], row[j])
    {
      EmittedMembers(logs, upto - 1, currentTime, initBuffer, front[i]);
      RowDueMembers(logs, upto, |logs|, currentTime, initBuffer, row[j]);
    }
  }

  lemma ConcatInRowOrder(a: seq<(int, int)>, b: seq<(int, int)>)
    requires InRowOrder(a) && InRowOrder(b)
    requires forall i, j :: 0 <= i < |a| && 0 <= j < |b| ==> RowBefore(a[i], b[j])
    ensures InRowOrder(a + b)
  {
    var c := a + b;
    forall i, j | 0 <= i < j < |c|
      ensures RowBefore(c[i], c[j])
    {
      if j < |a| {
        assert c[i] == a[i] && c[j] == a[j];
      } else if i < |a| {
        assert c[i] == a[i] && c[j] == b[j - |a|];
      } else {
        assert c[i] == b[i - |a|] && c[j] == b[j - |a|];
      }
    }
  }

  /** All logs after the play-out loop: each one marked over segments 1..upto. */
  function MarkAll(logs: seq<map<int, SegPrintLogInformation>>, currentTime: int, initBuffer: int, upto: int)
    : (r: seq<map<int, SegPrintLogInformation>>)
    ensures |r| == |logs|
  {
    seq(|logs|, L requires 0 <= L < |logs| => MarkUpTo(logs[L], currentTime, initBuffer, upto))
  }

  /**
   * A repeat call at the same time emits nothing: every row that was due is
   * now played, and nothing else changed.
   */
  lemma RepeatEmitsNothing(logs: seq<map<int, SegPrintLogInformation>>, currentTime: int, initBuffer: int, upto: int)
    ensures EmittedUpTo(MarkAll(logs, currentTime, initBuffer, upto), upto, currentTime, initBuffer) == []
  {
    var marked := MarkAll(logs, currentTime, initBuffer, upto);
    var rows := EmittedUpTo(marked, upto, currentTime, initBuffer);
    if |rows| > 0 {
      var p := rows[0];
      EmittedMembers(marked, upto, currentTime, initBuffer, p);
      var m := logs[p.1];
      MarkUpToEntries(m, currentTime, initBuffer, upto, p.0);
      MarkUpToEntries(m, currentTime, initBuffer, upto, p.0 - 1);
      MarkUpToEntries(m, currentTime, initBuffer, upto, initBuffer);
      assert false;
    }
  }

  /** Marking changes only the Played flag, and only from false to true. */
  lemma MarkOnlySetsPlayed(m: map<int, SegPrintLogInformation>, currentTime: int, initBuffer: int, upto: int, j: int)
    ensures Get(MarkUpTo(m, currentTime, initBuffer, upto), j).(played := false) == Get(m, j).(played := false)
    ensures Get(m, j).played ==> Get(MarkUpTo(m, currentTime, initBuffer, upto), j).played
  {
    MarkUpToEntries(m, currentTime, initBuffer, upto, j);
  }

  /** The logs part-way through one pass over segment k: logs before `done` are marked at k. */
  ghost function PartlyMarked(start: seq<map<int, SegPrintLogInformation>>, currentTime: int, initBuffer: int,
                              k: int, done: int): (r: seq<map<int, SegPrintLogInformation>>)
    ensures |r| == |start|
  {
    seq(|start|, L requires 0 <= L < |start| =>
      MarkUpTo(start[L], currentTime, initBuffer, if L < done then k else k - 1))
  }

  lemma PartlyMarkedStep(start: seq<map<int, SegPrintLogInformation>>, currentTime: int, initBuffer: int,
                         k: int, done: int)
    requires 0 <= done < |start|
    ensures PartlyMarked(start, currentTime, initBuffer, k, done + 1)
         == PartlyMarked(start, currentTime, initBuffer, k, done)[done := MarkUpTo(start[done], currentTime, initBuffer, k)]
  {
  }

  /** The integer columns of an emitted row. */
  datatype PlayOutRow = PlayOutRow(segment: int, arrivalTime: int, deliveryTime: int, stall: int,
                                   repLevelKbps: int, delRateKbps: int, actRate: int, segSize: int,
                                   bufferLevel: int, segmentDurationMs: int, playStart: int)

  /**
   * The row printed for segment k of a log: the stall as its absolute value,
   * the two rates in kbit/s, the segment duration in ms and the play start of
   * segment k − 1.
   */
  function RowOf(m: map<int, SegPrintLogInformation>, k: int): (row: PlayOutRow)
    ensures row.segment == k && row.stall >= 0
    ensures Get(m, k).stallTime <= 0 ==> row.stall == -Get(m, k).stallTime
    ensures row.playStart == Get(m, k - 1).playStartPosition
  {
    var e := Get(m, k);
    PlayOutRow(k, e.arrivalTime, e.deliveryTime, CalcFunctions.Abs(e.stallTime), GoNum.Quo(e.bandwidth, 1000),
               GoNum.Quo(e.delRate, 1000), e.actRate, e.segSize, e.bufferLevel, e.segmentDuration * 1000,
               Get(m, k - 1).playStartPosition)
  }

  /** The log maps PrintPlayOutLog walks, one per adaptation set. */
  class PlayOutLog {
    var logs: seq<map<int, SegPrintLogInformation>>

    constructor (segmentLogs: seq<map<int, SegPrintLogInformation>>)
      ensures logs == segmentLogs
    {
      logs := segmentLogs;
    }

    /** One pass of the outer loop: segment k of every log, in log order. */
    method PlayOutSegment(k: int, currentTime: int, initBuffer: int, ghost start: seq<map<int, SegPrintLogInformation>>)
      returns (row: seq<(int, int)>)
      requires k >= 1 && logs == MarkAll(start, currentTime, initBuffer, k - 1)
      modifies this
      ensures logs == MarkAll(start, currentTime, initBuffer, k)
      ensures row == RowDue(start, k, |start|, currentTime, initBuffer)
    {
      row := [];
      var current := logs;
      assert current == PartlyMarked(start, currentTime, initBuffer, k, 0);
      var logIndex := 0;
      while logIndex < |current|
        invariant 0 <= logIndex <= |current| == |start|
        invariant current == PartlyMarked(start, currentTime, initBuffer, k, logIndex)
        invariant row == RowDue(start, k, logIndex, currentTime, initBuffer)
      {
        var m := current[logIndex];
        MarkStep(start[logIndex], currentTime, initBuffer, k);
        PartlyMarkedStep(start, currentTime, initBuffer, k, logIndex);
        if currentTime >= Get(m, k - 1).playStartPosition + Get(m, initBuffer).playStartPosition
           && !Get(m, k).played {
          row := row + [(k, logIndex)];
          var localMap := Get(m, k).(played := true);
          current := current[logIndex := m[k := localMap]];
        }
        logIndex := logIndex + 1;
      }
      assert current == MarkAll(start, currentTime, initBuffer, k);
      logs := current;
    }

    /**
     * PrintPlayOutLog: the rows it emits, in order, and the logs with those
     * rows marked Played; the panic of an empty slice of logs. The first log
     * holds segments 1..n, as the player stores them.
     */
    method PrintPlayOutLog(currentTime: int, initBuffer: int) returns (r: Result<seq<(int, int)>>)
      requires |logs| > 0 ==> forall j :: j in logs[0] <==> 1 <= j <= |logs[0]|
      modifies this
      ensures |old(logs)| == 0 ==> r == Err(IndexOutOfRange) && logs == old(logs)
      ensures |old(logs)| > 0 ==>
        r == Ok(EmittedUpTo(old(logs), |old(logs)[0]|, currentTime, initBuffer)) &&
        logs == MarkAll(old(logs), currentTime, initBuffer, |old(logs)[0]|)
    {
      if |logs| == 0 {
        return Err(IndexOutOfRange);
      }
      ghost var start := logs;
      ghost var n := |logs[0]|;
      var emitted: seq<(int, int)> := [];
      var playoutSegmentNumber := 1;
      assert logs == MarkAll(start, currentTime, initBuffer, 0);
      while playoutSegmentNumber <= |logs[0]|
        invariant 1 <= playoutSegmentNumber <= n + 1
        invariant logs == MarkAll(start, currentTime, initBuffer, playoutSegmentNumber - 1)
        invariant |logs[0]| == n
        invariant emitted == EmittedUpTo(start, playoutSegmentNumber - 1, currentTime, initBuffer)
        decreases n + 1 - playoutSegmentNumber
      {
        var row := PlayOutSegment(playoutSegmentNumber, currentTime, initBuffer, start);
        emitted := emitted + row;
        MarkKeepsKeys(start[0], currentTime, initBuffer, playoutSegmentNumber);
        assert |logs[0].Keys| == |start[0].Keys|;
        playoutSegmentNumber := playoutSegmentNumber + 1;
      }
      return Ok(emitted);
    }
  }
}
