// Whole runs of calls: creating, setting a property of a row, and setting a property of
// every row of a result set (results.hpp).
module Runs {
  import opened Options
  import opened PropertyTypes
  import opened Store
  import opened Engine
  import opened Framing
  import opened FrameProofs

  // ----- the calls

  /** `Object::set_property_value`, outside migrations. */
  function SetPropertyValue(s: Schema, st: State, t: nat, row: nat, c: nat, v: Value, pol: Policy): Res<nat>
    requires t < |s|
  {
    if row >= Count(st, t) then Err(st, InvalidRow)
    else if c >= |s[t].props| then Err(st, InvalidProperty(t))
    else if s[t].pk == Some(c) then Err(st, ModifyPrimaryKey(t))
    else SetProp(s, st, t, row, c, v, pol, false, true)
  }

  /** The rows from `from` on that a query matches, in table order. */
  function Snapshot(st: State, t: nat, query: (State, nat) -> bool, from: nat): (rows: seq<nat>)
    ensures forall r :: r in rows <==> from <= r < Count(st, t) && query(st, r)
    ensures forall i, j :: 0 <= i < j < |rows| ==> rows[i] < rows[j]
    decreases Count(st, t) - from
  {
    if from >= Count(st, t) then []
    else if query(st, from) then
      var rest := Snapshot(st, t, query, from + 1);
      assert forall j :: 0 <= j < |rest| ==> rest[j] in rest;
      [from] + rest
    else Snapshot(st, t, query, from + 1)
  }

  /** `Results::set_property_value`, given the rows of the snapshot. */
  function Batch(s: Schema, st: State, t: nat, rows: seq<nat>, c: nat, v: Value): Res<nat>
    requires t < |s|
  {
    if c >= |s[t].props| then Err(st, InvalidProperty(t))
    else if s[t].pk == Some(c) then Err(st, ModifyPrimaryKey(t))
    else BatchFrom(s, st, t, rows, c, v, 0)
  }

  function BatchFrom(s: Schema, st: State, t: nat, rows: seq<nat>, c: nat, v: Value, i: nat): Res<nat>
    requires t < |s| && c < |s[t].props| && i <= |rows|
    decreases |rows| - i
  {
    if i == |rows| then Ok(st, i)
    else if rows[i] >= Count(st, t) then Err(st, InvalidRow)
    else match SetProp(s, st, t, rows[i], c, v, ForceCreate, false, true)
      case Err(st1, e) => Err(st1, e)
      case Ok(st1, _) => BatchFrom(s, st1, t, rows, c, v, i + 1)
  }

  // ----- keys over runs

  datatype Call =
    | CreateCall(t: nat, v: Value, pol: Policy)
    | SetCall(t: nat, row: nat, c: nat, v: Value, pol: Policy)
    | BatchCall(t: nat, rows: seq<nat>, c: nat, v: Value)

  /** The state after a call, whether it returned or raised an exception. */
  function Exec(s: Schema, st: State, call: Call): State {
    if call.t >= |s| then st
    else match call
      case CreateCall(t, v, pol) => Create(s, st, t, v, pol, None, true).st
      case SetCall(t, row, c, v, pol) => SetPropertyValue(s, st, t, row, c, v, pol).st
      case BatchCall(t, rows, c, v) => Batch(s, st, t, rows, c, v).st
  }

  function ExecAll(s: Schema, st: State, calls: seq<Call>): State
    decreases |calls|
  {
    if calls == [] then st else ExecAll(s, Exec(s, st, calls[0]), calls[1..])
  }

  /** Rows keep their keys, and added rows have keys that are new to their table. */
  ghost predicate KeysKept(s: Schema, x: State, y: State) {
    Wf(s, y) && KeysStable(s, x, y) && NewKeysFresh(s, x, y)
  }

  lemma {:induction false} BatchFromKeys(s: Schema, x: State, t: nat, rows: seq<nat>, c: nat, v: Value, i: nat)
    requires Wf(s, x) && t < |s| && c < |s[t].props| && s[t].pk != Some(c) && i <= |rows|
    ensures KeysKept(s, x, BatchFrom(s, x, t, rows, c, v, i).st)
    decreases |rows| - i
  {
    if i < |rows| && rows[i] < Count(x, t) {
      var r := SetProp(s, x, t, rows[i], c, v, ForceCreate, false, true);
      SetPropFrame(s, x, t, rows[i], c, v, ForceCreate, false, true);
      if r.Ok? {
        BatchFromKeys(s, r.st, t, rows, c, v, i + 1);
        KeysStableTrans(s, x, r.st, BatchFrom(s, r.st, t, rows, c, v, i + 1).st);
        NewKeysFreshTrans(s, x, r.st, BatchFrom(s, r.st, t, rows, c, v, i + 1).st);
      }
    }
  }

  lemma ExecKeys(s: Schema, x: State, call: Call)
    requires Wf(s, x)
    ensures KeysKept(s, x, Exec(s, x, call))
  {
    if call.t < |s| {
      match call
      case CreateCall(t, v, pol) => CreateFrame(s, x, t, v, pol, None, true);
      case SetCall(t, row, c, v, pol) =>
        if row < Count(x, t) && c < |s[t].props| && s[t].pk != Some(c) {
          SetPropFrame(s, x, t, row, c, v, pol, false, true);
        }
      case BatchCall(t, rows, c, v) =>
        if c < |s[t].props| && s[t].pk != Some(c) {
          BatchFromKeys(s, x, t, rows, c, v, 0);
        }
    }
  }

  lemma {:induction false} ExecAllKeys(s: Schema, x: State, calls: seq<Call>)
    requires Wf(s, x)
    ensures KeysKept(s, x, ExecAll(s, x, calls))
    decreases |calls|
  {
    if calls != [] {
      var y := Exec(s, x, calls[0]);
      ExecKeys(s, x, calls[0]);
      ExecAllKeys(s, y, calls[1..]);
      KeysStableTrans(s, x, y, ExecAll(s, y, calls[1..]));
      NewKeysFreshTrans(s, x, y, ExecAll(s, y, calls[1..]));
    }
  }

  /** Primary-key safety: over every run of calls with any policies, whichever of them
      raise exceptions, no key ever occurs twice and no existing row ever changes its key. */
  lemma KeysStayUnique(s: Schema, x: State, calls: seq<Call>)
    requires Wf(s, x) && UniqueKeys(s, x)
    ensures UniqueKeys(s, ExecAll(s, x, calls))
    ensures forall t, r :: 0 <= t < |s| && 0 <= r < Count(x, t) ==>
      r < Count(ExecAll(s, x, calls), t) && KeyAt(s, ExecAll(s, x, calls), t, r) == KeyAt(s, x, t, r)
  {
    ExecAllKeys(s, x, calls);
    FreshKeysStayUnique(s, x, ExecAll(s, x, calls));
  }

  // ----- batch writes of scalars

  /** One logged write per row, in order. */
  function Writes(t: nat, rows: seq<nat>, c: nat, x: Cell): seq<Op> {
    if rows == [] then [] else [At(Addr(t, rows[0], c), SetTo(x))] + Writes(t, rows[1..], c, x)
  }

  lemma SetScalar(s: Schema, st: State, t: nat, row: nat, c: nat, v: Value)
    requires t < |s| && c < |s[t].props| && !s[t].props[c].ty.list && s[t].props[c].ty.base != Object
    ensures var u := UnboxScalar(s[t].props[c].ty, v); var r := SetProp(s, st, t, row, c, v, ForceCreate, false, true);
      && (u.Good? ==> r == Ok(Do(st, Addr(t, row, c), SetTo(u.val)), row))
      && (u.Bad? ==> r == Err(st, u.error))
  {
    var p := s[t].props[c];
    var a := Addr(t, row, c);
    if !(p.ty.nullable && v.Null?) {
      assert UnboxItem(s, st, p, v, ForceCreate, LinkedRow(Get(st, a)), true).Outcome() == UnboxScalar(p.ty, v);
      assert SetProp(s, st, t, row, c, v, ForceCreate, false, true) == Update(s, st, a, p, v, ForceCreate, true);
    }
  }

  lemma {:induction false} BatchFromScalar(s: Schema, st: State, t: nat, rows: seq<nat>, c: nat, v: Value, i: nat, x: Cell)
    requires t < |s| && c < |s[t].props| && i <= |rows|
    requires !s[t].props[c].ty.list && s[t].props[c].ty.base != Object
    requires UnboxScalar(s[t].props[c].ty, v) == Good(x)
    requires forall r :: r in rows ==> r < Count(st, t)
    ensures var q := BatchFrom(s, st, t, rows, c, v, i);
      && q.Ok? && q.st.rows == st.rows
      && (forall a :: Get(q.st, a) == if a.t == t && a.c == c && a.r in rows[i..] then x else Get(st, a))
      && q.st.log == st.log + Writes(t, rows[i..], c, x)
    decreases |rows| - i
  {
    if i < |rows| {
      var st1 := Do(st, Addr(t, rows[i], c), SetTo(x));
      var op := At(Addr(t, rows[i], c), SetTo(x));
      assert rows[i] in rows;
      SetScalar(s, st, t, rows[i], c, v);
      assert BatchFrom(s, st, t, rows, c, v, i) == BatchFrom(s, st1, t, rows, c, v, i + 1);
      assert rows[i..][1..] == rows[i + 1..] && rows[i..] == [rows[i]] + rows[i + 1..];
      assert Writes(t, rows[i..], c, x) == [op] + Writes(t, rows[i + 1..], c, x);
      assert st1.log + Writes(t, rows[i + 1..], c, x) == st.log + Writes(t, rows[i..], c, x);
      BatchFromScalar(s, st1, t, rows, c, v, i + 1, x);
    } else {
      assert st.log + Writes(t, rows[i..], c, x) == st.log;
    }
  }

  /** A batch write through a snapshot sets the value on exactly the rows that matched at
      the start, once each and in table order, whatever the query depends on. */
  lemma BatchHitsTheMatches(s: Schema, st: State, t: nat, query: (State, nat) -> bool, c: nat, v: Value)
    requires t < |s| && c < |s[t].props| && s[t].pk != Some(c)
    requires !s[t].props[c].ty.list && s[t].props[c].ty.base != Object
    ensures var rows := Snapshot(st, t, query, 0);
      var q := Batch(s, st, t, rows, c, v);
      var u := UnboxScalar(s[t].props[c].ty, v);
      && (u.Good? ==>
            && q.Ok? && q.st.rows == st.rows
            && (forall a :: Get(q.st, a) ==
                  if a.t == t && a.c == c && a.r < Count(st, t) && query(st, a.r) then u.val else Get(st, a))
            && q.st.log == st.log + Writes(t, rows, c, u.val))
      && (u.Bad? ==> q.st == st && (q.Ok? <==> forall r :: 0 <= r < Count(st, t) ==> !query(st, r)))
  {
    var rows := Snapshot(st, t, query, 0);
    var u := UnboxScalar(s[t].props[c].ty, v);
    if u.Good? {
      BatchFromScalar(s, st, t, rows, c, v, 0, u.val);
      assert rows[0..] == rows;
    } else {
      BatchRefused(s, st, t, rows, c, v);
      assert rows != [] ==> rows[0] in rows;
    }
  }

  /** A value of the wrong type: nothing is written, and the first row raises. */
  lemma BatchRefused(s: Schema, st: State, t: nat, rows: seq<nat>, c: nat, v: Value)
    requires t < |s| && c < |s[t].props| && !s[t].props[c].ty.list && s[t].props[c].ty.base != Object
    requires UnboxScalar(s[t].props[c].ty, v).Bad?
    ensures var q := BatchFrom(s, st, t, rows, c, v, 0); q.st == st && (q.Ok? <==> rows == [])
  {
    if rows != [] {
      SetScalar(s, st, t, rows[0], c, v);
    }
  }
}
