// The intrusive list of observation infos for one row (RLMObservation.hpp) and its walk.
module Observation {
  import opened Sequences

  class Info {
    var prev: Info?
    var next: Info?
    var observed: nat

    constructor (observed: nat)
      ensures prev == null && next == null && this.observed == observed
    {
      prev, next, this.observed := null, null, observed;
    }

    /** The first loop of `forEach`: the infos before this one, nearest first. */
    method VisitBefore(ghost chain: seq<Info>, ghost k: nat) returns (calls: seq<nat>)
      requires WellLinked(chain) && k < |chain| && chain[k] == this
      ensures calls == Reverse(Objects(chain)[..k])
    {
      calls := [];
      ghost var objects := Objects(chain);
      ghost var i := k;
      var info := prev;
      assert info == chain[k].prev;
      while info != null
        invariant 0 <= i <= k
        invariant if i == 0 then info == null else info == chain[i - 1]
        invariant calls == Reverse(objects[i..k])
        decreases i
      {
        OneBack(objects, i, k);
        calls := calls + [info.observed];
        assert info.prev == chain[i - 1].prev;
        info := info.prev;
        i := i - 1;
      }
      assert objects[0..k] == objects[..k];
    }

    /** The second loop of `forEach`: this info and those after it. */
    method VisitFrom(ghost chain: seq<Info>, ghost k: nat) returns (calls: seq<nat>)
      requires WellLinked(chain) && k < |chain| && chain[k] == this
      ensures calls == Objects(chain)[k..]
    {
      calls := [];
      ghost var objects := Objects(chain);
      ghost var j := k;
      var info: Info? := this;
      while info != null
        invariant k <= j <= |chain|
        invariant if j == |chain| then info == null else info == chain[j]
        invariant calls == objects[k..j]
        decreases |chain| - j
      {
        OneOn(objects, k, j);
        calls := calls + [info.observed];
        assert info.next == chain[j].next;
        info := info.next;
        j := j + 1;
      }
      assert objects[k..j] == objects[k..];
    }

    /** `forEach`: the infos before this one, then this one and those after it. */
    method ForEach(ghost chain: seq<Info>, ghost k: nat) returns (calls: seq<nat>)
      requires WellLinked(chain) && k < |chain| && chain[k] == this
      ensures calls == VisitOrder(Objects(chain), k)
      ensures |calls| == |chain|
      ensures forall i :: 0 <= i < k ==> calls[i] == chain[k - 1 - i].observed
      ensures forall i :: k <= i < |chain| ==> calls[i] == chain[i].observed
    {
      var before := VisitBefore(chain, k);
      var rest := VisitFrom(chain, k);
      calls := before + rest;
    }
  }

  lemma OneBack(s: seq<nat>, i: nat, k: nat)
    requires 0 < i <= k <= |s|
    ensures Reverse(s[i - 1..k]) == Reverse(s[i..k]) + [s[i - 1]]
  {
    assert s[i - 1..k][1..] == s[i..k];
  }

  lemma OneOn(s: seq<nat>, k: nat, j: nat)
    requires k <= j < |s|
    ensures s[k..j + 1] == s[k..j] + [s[j]]
  {
  }

  /** A proper doubly-linked list: no info occurs twice, and the links go both ways. */
  ghost predicate WellLinked(chain: seq<Info>)
    reads chain
  {
    && (forall i, j :: 0 <= i < j < |chain| ==> chain[i] != chain[j])
    && (forall i {:trigger chain[i].prev} :: 0 <= i < |chain| ==> chain[i].prev == (if i == 0 then null else chain[i - 1]))
    && (forall i {:trigger chain[i].next} :: 0 <= i < |chain| ==> chain[i].next == (if i == |chain| - 1 then null else chain[i + 1]))
  }

  ghost function Objects(chain: seq<Info>): (objects: seq<nat>)
    reads chain
    ensures |objects| == |chain| && forall i :: 0 <= i < |chain| ==> objects[i] == chain[i].observed
  {
    if chain == [] then [] else [chain[0].observed] + Objects(chain[1..])
  }

  /** The predecessors in reverse, then the rest. */
  function VisitOrder(objects: seq<nat>, k: nat): seq<nat>
    requires k <= |objects|
  {
    Reverse(objects[..k]) + objects[k..]
  }

  lemma {:induction false} ReverseKeeps(s: seq<nat>)
    ensures multiset(Reverse(s)) == multiset(s)
  {
    if s != [] {
      ReverseKeeps(s[1..]);
      assert s == [s[0]] + s[1..];
    }
  }

  /** Every object of the chain is visited as often as it occurs, so every info once. */
  lemma VisitsEachOnce(objects: seq<nat>, k: nat)
    requires k <= |objects|
    ensures multiset(VisitOrder(objects, k)) == multiset(objects)
  {
    ReverseKeeps(objects[..k]);
    assert objects == objects[..k] + objects[k..];
  }
}
