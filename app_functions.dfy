/**
 * Lookup and configuration-override helpers of goDASH's utils package.
 * The `Check*Val` helpers write through `*name` in Go; here they return the
 * value the pointed-to variable holds afterwards.
 */
module AppFunctions {

  /** utils.FindInStringArray: the first position holding `item`, or (false, -1). */
  method FindInStringArray(values: seq<string>, item: string) returns (found: bool, index: int)
    ensures found <==> item in values
    ensures found ==> 0 <= index < |values| && values[index] == item
    ensures found ==> forall j :: 0 <= j < index ==> values[j] != item
    ensures !found ==> index == -1
  {
    var i := 0;
    while i < |values|
      invariant 0 <= i <= |values|
      invariant forall j :: 0 <= j < i ==> values[j] != item
    {
      if item == values[i] {
        return true, i;
      }
      i := i + 1;
    }
    return false, -1;
  }

  /** utils.FindInIntArray: the first position holding `item`, or (false, -1). */
  method FindInIntArray(values: seq<int>, item: int) returns (found: bool, index: int)
    ensures found <==> item in values
    ensures found ==> 0 <= index < |values| && values[index] == item
    ensures found ==> forall j :: 0 <= j < index ==> values[j] != item
    ensures !found ==> index == -1
  {
    var i := 0;
    while i < |values|
      invariant 0 <= i <= |values|
      invariant forall j :: 0 <= j < i ==> values[j] != item
    {
      if item == values[i] {
        return true, i;
      }
      i := i + 1;
    }
    return false, -1;
  }

  /** utils.CheckStringVal: `*name` takes `*p` unless `*p` is empty. */
  function CheckStringVal(p: string, name: string): (newName: string)
    ensures p != "" ==> newName == p
    ensures p == "" ==> newName == name
  {
    if p != "" then p else name
  }

  /** utils.CheckIntVal: `*name` takes `*p` unless `*p` is zero. */
  function CheckIntVal(p: int, name: int): (newName: int)
    ensures p != 0 ==> newName == p
    ensures p == 0 ==> newName == name
  {
    if p != 0 then p else name
  }

  /** utils.CheckFloatVal: `*name` takes `*p` unless `*p` is zero. */
  function CheckFloatVal(p: real, name: real): (newName: real)
    ensures p != 0.0 ==> newName == p
    ensures p == 0.0 ==> newName == name
  {
    if p != 0.0 then p else name
  }
}
