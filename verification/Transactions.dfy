// The write wrapper of RealmSwift's Realm, around blocks that edit the data and may begin,
// commit or cancel transactions themselves.
module Transactions {
  import opened Options

  datatype Step<!D> = Edit(f: D -> D) | Begin | Commit | Cancel

  /** Edits, commits and cancels need a write transaction, and beginning needs none. */
  predicate Legal<D>(block: seq<Step<D>>, i: nat, inWrite: bool)
    requires i <= |block|
    decreases |block| - i
  {
    i == |block| ||
    match block[i]
    case Edit(_) => inWrite && Legal(block, i + 1, true)
    case Begin => !inWrite && Legal(block, i + 1, true)
    case Commit => inWrite && Legal(block, i + 1, false)
    case Cancel => inWrite && Legal(block, i + 1, false)
  }

  // ----- which edits last

  /** The transaction that is open at step `i` gets committed: by the first commit or cancel
      from there on, or by the wrapper, if the block does not throw. */
  predicate EndsInCommit<D>(block: seq<Step<D>>, throws: bool, i: nat)
    requires i <= |block|
    decreases |block| - i
  {
    if i == |block| then !throws
    else if block[i].Commit? then true
    else if block[i].Cancel? then false
    else EndsInCommit(block, throws, i + 1)
  }

  /** The data with every edit from step `i` on whose transaction gets committed. */
  function Lasting<D>(data: D, block: seq<Step<D>>, throws: bool, i: nat): D
    requires i <= |block|
    decreases |block| - i
  {
    if i == |block| then data
    else if block[i].Edit? && EndsInCommit(block, throws, i) then Lasting(block[i].f(data), block, throws, i + 1)
    else Lasting(data, block, throws, i + 1)
  }

  // ----- running

  /** The committed data at the end, when the block is at step `i`. */
  function Finish<D>(committed: D, pending: Option<D>, block: seq<Step<D>>, throws: bool, i: nat): D
    requires i <= |block| && Legal(block, i, pending.Some?)
    decreases |block| - i
  {
    if i == |block| then (if pending.Some? && !throws then pending.value else committed)
    else match block[i]
      case Edit(f) => Finish(committed, Some(f(pending.value)), block, throws, i + 1)
      case Begin => Finish(committed, Some(committed), block, throws, i + 1)
      case Commit => Finish(pending.value, None, block, throws, i + 1)
      case Cancel => Finish(committed, None, block, throws, i + 1)
  }

  lemma {:induction false} FinishIsLasting<D>(committed: D, pending: Option<D>, block: seq<Step<D>>, throws: bool, i: nat)
    requires i <= |block| && Legal(block, i, pending.Some?)
    ensures Finish(committed, pending, block, throws, i) ==
      Lasting(if pending.Some? && EndsInCommit(block, throws, i) then pending.value else committed, block, throws, i)
    decreases |block| - i
  {
    if i < |block| {
      match block[i]
      case Edit(f) => FinishIsLasting(committed, Some(f(pending.value)), block, throws, i + 1);
      case Begin => FinishIsLasting(committed, Some(committed), block, throws, i + 1);
      case Commit => FinishIsLasting(pending.value, None, block, throws, i + 1);
      case Cancel => FinishIsLasting(committed, None, block, throws, i + 1);
    }
  }

  class Realm<!D> {
    var committed: D
    var pending: Option<D>

    predicate InWrite()
      reads this
    {
      pending.Some?
    }

    constructor (data: D)
      ensures committed == data && !InWrite()
    {
      committed := data;
      pending := None;
    }

    method BeginWrite()
      requires !InWrite()
      modifies this
      ensures committed == old(committed) && pending == Some(committed)
    {
      pending := Some(committed);
    }

    method CommitWrite()
      requires InWrite()
      modifies this
      ensures committed == old(pending.value) && !InWrite()
    {
      committed := pending.value;
      pending := None;
    }

    method CancelWrite()
      requires InWrite()
      modifies this
      ensures committed == old(committed) && !InWrite()
    {
      pending := None;
    }

    /** The block itself, up to where it returns or throws. */
    method RunBlock(block: seq<Step<D>>, ghost throws: bool)
      requires Legal(block, 0, InWrite())
      modifies this
      ensures Finish(committed, pending, block, throws, |block|) == Finish(old(committed), old(pending), block, throws, 0)
    {
      var i := 0;
      while i < |block|
        invariant 0 <= i <= |block| && Legal(block, i, InWrite())
        invariant Finish(committed, pending, block, throws, i) == Finish(old(committed), old(pending), block, throws, 0)
      {
        match block[i] {
          case Edit(f) => pending := Some(f(pending.value));
          case Begin => BeginWrite();
          case Commit => CommitWrite();
          case Cancel => CancelWrite();
        }
        i := i + 1;
      }
    }

    /** `write`: whatever a legal block does, the realm ends outside a write transaction,
        and the data has exactly the edits whose transaction was committed: those of the
        block's own commits, and the rest if it returns. */
    method Write(block: seq<Step<D>>, throws: bool) returns (returned: bool)
      requires !InWrite() && Legal(block, 0, true)
      modifies this
      ensures !InWrite() && returned == !throws
      ensures committed == Lasting(old(committed), block, throws, 0)
    {
      BeginWrite();
      FinishIsLasting(committed, pending, block, throws, 0);
      RunBlock(block, throws);
      if throws {
        if InWrite() {
          CancelWrite();
        }
        return false;
      }
      if InWrite() {
        CommitWrite();
      }
      return true;
    }
  }

  // ----- blocks that only edit

  function AllEdits<D>(data: D, block: seq<Step<D>>, i: nat): D
    requires i <= |block| && forall k :: 0 <= k < |block| ==> block[k].Edit?
    decreases |block| - i
  {
    if i == |block| then data else AllEdits(block[i].f(data), block, i + 1)
  }

  /** A block that only edits is all or nothing. */
  lemma {:induction false} AllOrNothing<D>(data: D, block: seq<Step<D>>, throws: bool, i: nat)
    requires i <= |block| && forall k :: 0 <= k < |block| ==> block[k].Edit?
    ensures Legal(block, i, true)
    ensures EndsInCommit(block, throws, i) <==> !throws
    ensures Lasting(data, block, throws, i) == if throws then data else AllEdits(data, block, i)
    decreases |block| - i
  {
    if i < |block| {
      AllOrNothing(data, block, throws, i + 1);
      AllOrNothing(block[i].f(data), block, throws, i + 1);
    }
  }
}
