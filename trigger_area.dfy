/**
  TriggerArea: the list of rigidbodies currently inside a trigger collider,
  maintained by the enter and exit callbacks. The list is a bag in order of
  arrival: a body that enters twice is listed twice, and an exit removes one
  listing only.
*/
module TriggerAreas {
  import opened Options

  /** A Rigidbody reference. */
  type BodyId = nat

  /** List<T>.Remove(x): drop the first occurrence of `x`, if any. */
  function RemoveFirst(s: seq<BodyId>, x: BodyId): (r: seq<BodyId>)
    ensures x !in s ==> r == s
    ensures x in s ==> |r| == |s| - 1
  {
    if s == [] then []
    else if s[0] == x then s[1..]
    else [s[0]] + RemoveFirst(s[1..], x)
  }

  /** RemoveFirst cuts the list at the first occurrence `i` of `x`. */
  lemma {:induction false} RemoveFirstSplits(s: seq<BodyId>, x: BodyId) returns (i: nat)
    requires x in s
    ensures i < |s| && s[i] == x && x !in s[..i]
    ensures RemoveFirst(s, x) == s[..i] + s[i + 1..]
  {
    if s[0] == x {
      i := 0;
    } else {
      var j := RemoveFirstSplits(s[1..], x);
      i := j + 1;
      assert s[..i] == [s[0]] + s[1..][..j];
      assert s[i + 1..] == s[1..][j + 1..];
    }
  }

  /** As a bag, removing takes away exactly one copy of `x` and nothing else. */
  lemma {:induction false} RemoveFirstMultiset(s: seq<BodyId>, x: BodyId)
    ensures multiset(RemoveFirst(s, x)) == multiset(s) - multiset{x}
  {
    if s == [] {
    } else if s[0] == x {
      assert s == [s[0]] + s[1..];
    } else {
      RemoveFirstMultiset(s[1..], x);
      assert s == [s[0]] + s[1..];
    }
  }

  /** Entering and then leaving with the same body leaves the same bag. */
  lemma EnterThenExitRestoresBag(s: seq<BodyId>, x: BodyId)
    ensures multiset(RemoveFirst(s + [x], x)) == multiset(s)
  {
    RemoveFirstMultiset(s + [x], x);
  }

  /** Leaving with a body that was not listed before the last entry removes
      that entry and restores the list exactly. */
  lemma {:induction false} EnterThenExitOfNewBody(s: seq<BodyId>, x: BodyId)
    requires x !in s
    ensures RemoveFirst(s + [x], x) == s
  {
    if s == [] {
      assert s + [x] == [x];
    } else {
      assert (s + [x])[1..] == s[1..] + [x];
      EnterThenExitOfNewBody(s[1..], x);
      assert s == [s[0]] + s[1..];
    }
  }

  class TriggerArea {
    /** `rigidbodiesInTriggerArea`. */
    var rigidbodies: seq<BodyId>

    constructor ()
      ensures rigidbodies == []
    {
      rigidbodies := [];
    }

    /** OnTriggerEnter(col): list the collider's attached rigidbody, if any. */
    method OnTriggerEnter(attachedRigidbody: Option<BodyId>)
      modifies this
      ensures attachedRigidbody == None ==> rigidbodies == old(rigidbodies)
      ensures attachedRigidbody.Some? ==> rigidbodies == old(rigidbodies) + [attachedRigidbody.value]
    {
      if attachedRigidbody.Some? {
        rigidbodies := rigidbodies + [attachedRigidbody.value];
      }
    }

    /** OnTriggerExit(col): remove one listing of the attached rigidbody. */
    method OnTriggerExit(attachedRigidbody: Option<BodyId>)
      modifies this
      ensures attachedRigidbody == None ==> rigidbodies == old(rigidbodies)
      ensures attachedRigidbody.Some? ==> rigidbodies == RemoveFirst(old(rigidbodies), attachedRigidbody.value)
      ensures attachedRigidbody.Some? ==>
                multiset(rigidbodies) == multiset(old(rigidbodies)) - multiset{attachedRigidbody.value}
    {
      if attachedRigidbody.Some? {
        RemoveFirstMultiset(rigidbodies, attachedRigidbody.value);
        rigidbodies := RemoveFirst(rigidbodies, attachedRigidbody.value);
      }
    }
  }

  /** Entering twice with one body lists it twice more. */
  lemma EnterTwiceListsTwice(s: seq<BodyId>, x: BodyId)
    ensures multiset(s + [x] + [x])[x] == multiset(s)[x] + 2
    ensures |s + [x] + [x]| == |s| + 2
  {
    assert multiset(s + [x] + [x]) == multiset(s) + multiset{x} + multiset{x};
  }
}
