/** The two array primitives the core relies on: `findIndex` and `splice(i, 1)`. */
module Lists {

  /** Array.prototype.findIndex: the first position whose element matches, or -1. */
  function FirstIndex<T>(s: seq<T>, matches: T -> bool): (r: int)
    ensures -1 <= r < |s|
    ensures r == -1 <==> forall i :: 0 <= i < |s| ==> !matches(s[i])
    ensures 0 <= r ==> matches(s[r]) && forall i :: 0 <= i < r ==> !matches(s[i])
  {
    if s == [] then -1
    else if matches(s[0]) then 0
    else
      var r := FirstIndex(s[1..], matches);
      if r == -1 then -1 else r + 1
  }

  /** Array.prototype.splice(i, 1): drop the element at i, keep the rest in order. */
  function RemoveAt<T>(s: seq<T>, i: int): (r: seq<T>)
    requires 0 <= i < |s|
    ensures |r| == |s| - 1
    ensures forall j :: 0 <= j < i ==> r[j] == s[j]
    ensures forall j :: i <= j < |r| ==> r[j] == s[j + 1]
    ensures multiset(r) + multiset{s[i]} == multiset(s)
  {
    assert s == s[..i] + [s[i]] + s[i + 1..];
    s[..i] + s[i + 1..]
  }
}
