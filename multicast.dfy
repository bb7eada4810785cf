/**
 * The invocation list of a C# multicast delegate (the `DataReceived` event of the listener).
 * `+=` appends a handler at the end; `-=` removes the LAST occurrence of the handler and leaves
 * the list as it is when the handler is not attached.
 */
module Multicast {

  /** The list after `list += h`. */
  function Combine<H>(list: seq<H>, h: H): (r: seq<H>)
    ensures |r| == |list| + 1 && r[..|list|] == list && r[|list|] == h
    ensures multiset(r) == multiset(list) + multiset{h}
  {
    list + [h]
  }

  /** The position of the last occurrence of `h`, the one that `-=` takes out. */
  function LastIndexOf<H(==)>(list: seq<H>, h: H): (i: nat)
    requires h in list
    ensures i < |list| && list[i] == h && h !in list[i + 1..]
    decreases |list|
  {
    if list[|list| - 1] == h then |list| - 1
    else
      assert list == list[..|list| - 1] + [list[|list| - 1]];
      LastIndexOf(list[..|list| - 1], h)
  }

  /** The list after `list -= h`: the last occurrence of `h` is taken out, nothing else moves. */
  function Remove<H(==)>(list: seq<H>, h: H): (r: seq<H>)
    ensures h !in list ==> r == list
    ensures multiset(r) == multiset(list) - multiset{h}
    decreases |list|
  {
    if list == [] then []
    else
      var n := |list| - 1;
      assert list == list[..n] + [list[n]];
      if list[n] == h then list[..n]
      else
        var r := Remove(list[..n], h) + [list[n]];
        assert h in list ==> h in list[..n];
        r
  }

  /** `-=` takes out exactly the last occurrence: the elements before and after it keep their order. */
  lemma {:induction false} RemoveTakesLastOccurrence<H>(list: seq<H>, h: H)
    requires h in list
    ensures Remove(list, h) == list[..LastIndexOf(list, h)] + list[LastIndexOf(list, h) + 1..]
    decreases |list|
  {
    var n := |list| - 1;
    var p := list[..n];
    assert list == p + [list[n]];
    if list[n] == h {
      assert LastIndexOf(list, h) == n;
      assert Remove(list, h) == p;
      assert list[n + 1..] == [];
    } else {
      assert h in p;
      var i := LastIndexOf(p, h);
      assert LastIndexOf(list, h) == i;
      assert Remove(list, h) == Remove(p, h) + [list[n]];
      RemoveTakesLastOccurrence(p, h);
      assert list[..i] == p[..i];
      assert list[i + 1..] == p[i + 1..] + [list[n]];
    }
  }

  /** Detaching the handler that was attached last restores the list as it was. */
  lemma RemoveUndoesCombine<H>(list: seq<H>, h: H)
    ensures Remove(Combine(list, h), h) == list
  {
    assert Combine(list, h)[..|list|] == list;
  }

  /** Detaching one handler does not disturb a different handler attached after it. */
  lemma RemoveBeforeCombine<H>(list: seq<H>, g: H, h: H)
    requires g != h
    ensures Remove(Combine(list, h), g) == Combine(Remove(list, g), h)
  {
    assert Combine(list, h)[..|list|] == list;
  }

  /** Detaching a handler twice is harmless: the second `-=` removes a further copy or nothing. */
  lemma RemoveTwice<H>(list: seq<H>, h: H)
    ensures multiset(Remove(Remove(list, h), h))[h] == if multiset(list)[h] >= 2 then multiset(list)[h] - 2 else 0
    ensures forall g :: g != h ==> multiset(Remove(Remove(list, h), h))[g] == multiset(list)[g]
  {
  }
}
