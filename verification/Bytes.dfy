// Bytes, and the folds every other module needs.
module Bytes {

  type Byte = b: int | 0 <= b < 256

  // An address that steps past the end of a memory.
  function Wrap(x: nat, m: nat): nat { if x >= m then x - m else x }

  // How many elements of a chain of flip-flops are '1'.
  function Count(s: seq<bool>): nat {
    if |s| == 0 then 0 else (if s[0] then 1 else 0) + Count(s[1..])
  }

  lemma {:induction false} CountAppend(s: seq<bool>, t: seq<bool>)
    ensures Count(s + t) == Count(s) + Count(t)
  {
    if |s| == 0 {
      assert s + t == t;
    } else {
      assert (s + t)[1..] == s[1..] + t;
      CountAppend(s[1..], t);
    }
  }

  lemma {:induction false} CountBounds(s: seq<bool>)
    ensures Count(s) <= |s|
    ensures (forall i :: 0 <= i < |s| ==> s[i]) <==> Count(s) == |s|
    ensures (forall i :: 0 <= i < |s| ==> !s[i]) <==> Count(s) == 0
  {
    if |s| == 0 {
    } else {
      CountBounds(s[1..]);
      assert forall i :: 1 <= i < |s| ==> s[i] == s[1..][i - 1];
    }
  }
}
