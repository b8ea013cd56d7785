// The object store as a program: a realm whose database is updated in place, with the
// loops of object_accessor.hpp, list.hpp and results.hpp. Every method does exactly what
// the corresponding function on states says, and finds and leaves a valid database, however
// deeply the calls are nested.
module Accessor {
  import opened Options
  import opened PropertyTypes
  import opened Store
  import opened Engine
  import opened Framing
  import opened FrameProofs
  import opened Policies
  import opened Keeping
  import opened Idempotence
  import opened Validation
  import opened PropertyWrites
  import opened BatchWrites
  import opened Integrity
  import opened Runs

  /** A method's outcome together with the state it left behind. */
  function AsRes<T>(st: State, o: Outcome<T>): Res<T> {
    match o
    case Good(x) => Ok(st, x)
    case Bad(e) => Err(st, e)
  }

  lemma EmptySound(s: Schema)
    ensures Sound(s, State(map[], map[], []))
  {
    assert Typed(s, State(map[], map[], []));
  }

  /** What the contract of `CreateObject` asks of the function on states. */
  lemma CreateContract(s: Schema, x: State, t: nat, v: Value, pol: Policy, cur: Option<nat>, top: bool)
    requires Sound(s, x) && t < |s|
    ensures var r := Create(s, x, t, v, pol, cur, top);
      && Sound(s, r.st) && KeysStable(s, x, r.st)
      && (r.Ok? ==> Located(s, r.st, t, v, r.val))
      && (top && Fresh(s, t, v, true, RuleFor(pol)) ==>
            (r.Ok? <==> Accepts(s, x, r.st, t, v, pol == ForceCreate, Reused(pol, cur), true)))
      && (pol == ForceCreate ==> Keeps(x, r.st))
  {
    CreateSound(s, x, t, v, pol, cur, top);
    CreateFrame(s, x, t, v, pol, cur, top);
    if top && Fresh(s, t, v, true, RuleFor(pol)) {
      CreateSucceeds(s, x, t, v, pol, cur);
    }
    if pol == ForceCreate {
      CreateKeeps(s, x, x, t, v, ForceCreate, cur, top);
    }
  }

  class Realm {
    const schema: Schema
    var db: State

    /** Cells have the types of their columns, no link dangles, no key occurs twice. */
    ghost predicate Valid() reads this {
      Sound(schema, db)
    }

    constructor (schema: Schema)
      ensures Valid() && this.schema == schema && db == State(map[], map[], [])
    {
      this.schema := schema;
      db := State(map[], map[], []);
      new;
      EmptySound(schema);
    }

    /** `Object::create`: find or add the row, then set the properties one by one. Keys stay
        as they are, the row that is returned has the value's key, and `ForceCreate` leaves
        everything alone that was there. It succeeds exactly if the value is acceptable. */
    method CreateObject(t: nat, v: Value, pol: Policy, cur: Option<nat>, top: bool) returns (o: Outcome<nat>)
      requires Valid() && t < |schema|
      modifies this
      ensures AsRes(db, o) == Create(schema, old(db), t, v, pol, cur, top)
      ensures Valid() && KeysStable(schema, old(db), db)
      ensures o.Good? ==> Located(schema, db, t, v, o.val)
      ensures top && Fresh(schema, t, v, true, RuleFor(pol)) ==>
        (o.Good? <==> Accepts(schema, old(db), db, t, v, pol == ForceCreate, Reused(pol, cur), true))
      ensures pol == ForceCreate ==> Keeps(old(db), db)
      decreases top, v, 5, 0
    {
      CreateContract(schema, db, t, v, pol, cur, top);
      if !v.Unmanaged? {
        return Bad(TypeMismatch);
      }
      var located := FindOrAdd(t, v, pol, cur);
      if located.Bad? {
        return Bad(located.error);
      }
      var slot := located.val;
      var props := schema[t].props;
      var i := 0;
      while i < |props|
        invariant 0 <= i <= |props| && Valid() && slot.row < Count(db, t)
        invariant Populate(schema, db, t, slot, v, pol, top, i) == Create(schema, old(db), t, v, pol, cur, top)
      {
        var done := SetFromValue(t, slot, v, pol, top, i);
        if done.Bad? {
          return Bad(done.error);
        }
        i := i + 1;
      }
      return Good(slot.row);
    }

    /** The lookup by primary key, and the policy's decision what to do with its result. */
    method FindOrAdd(t: nat, v: Value, pol: Policy, cur: Option<nat>) returns (o: Outcome<Slot>)
      requires Valid() && t < |schema|
      modifies this
      ensures AsRes(db, o) == Locate(schema, old(db), t, v, pol, cur)
      ensures Valid() && (o.Good? ==> o.val.row < Count(db, t))
    {
      LocateSound(schema, db, t, v, pol, cur);
      var init := InitialRow(schema[t].props);
      if schema[t].pk.Some? {
        var key := KeyOf(schema, t, v);
        if key.Bad? {
          return Bad(key.error);
        }
        var found := FindByKey(t, key.val);
        if found.Some? {
          if pol == ForceCreate {
            return Bad(DuplicateKey(t, key.val));
          }
          return Good(Slot(found.value, false));
        }
        init := init[schema[t].pk.value := key.val];
      } else if pol == UpdateModified && cur.Some? {
        if cur.value >= Count(db, t) {
          return Bad(InvalidRow);
        }
        return Good(Slot(cur.value, false));
      }
      var row := Count(db, t);
      db := AddRow(db, t, init);
      return Good(Slot(row, true));
    }

    /** The search of a key column: the first row with the key, if any has it. */
    method FindByKey(t: nat, key: Cell) returns (found: Option<nat>)
      requires t < |schema|
      ensures found == Find(schema, db, t, key)
      ensures found.Some? ==> found.value < Count(db, t) && KeyAt(schema, db, t, found.value) == key
      ensures found.None? ==> forall r :: 0 <= r < Count(db, t) ==> KeyAt(schema, db, t, r) != key
    {
      var r := 0;
      while r < Count(db, t)
        invariant 0 <= r <= Count(db, t)
        invariant FindFrom(schema, db, t, key, r) == Find(schema, db, t, key)
      {
        if KeyAt(schema, db, t, r) == key {
          return Some(r);
        }
        r := r + 1;
      }
      return None;
    }

    /** The body of the property loop. */
    method SetFromValue(t: nat, slot: Slot, v: Value, pol: Policy, top: bool, i: nat) returns (o: Outcome<nat>)
      requires Valid() && t < |schema| && i < |schema[t].props| && slot.row < Count(db, t)
      modifies this
      ensures AsRes(db, o) == PopulateOne(schema, old(db), t, slot, v, pol, top, i)
      ensures Valid() && slot.row < Count(db, t)
      decreases top, v, 3, 0
    {
      PopulateOneSound(schema, db, t, slot, v, pol, top, i);
      var p := schema[t].props[i];
      var f := Supplied(schema, t, v, i, top);
      if schema[t].pk == Some(i) || (FieldOf(v, i).Absent? && !slot.created) {
        return Good(slot.row);
      }
      if (f.Absent? || f.value.Null?) && !p.ty.nullable && !p.ty.list && !(v.Unmanaged? && v.isArray) {
        return Bad(MissingPropertyValue(t, i));
      }
      if f.Absent? {
        return Good(slot.row);
      }
      o := SetPropertyImpl(t, slot.row, i, f.value, pol, FieldOf(v, i).Absent?, SubTop(v, i, top));
    }

    /** `set_property_value_impl`, on a row that exists and a property other than the key. */
    method SetPropertyImpl(t: nat, row: nat, c: nat, v: Value, pol: Policy, isDefault: bool, top: bool) returns (o: Outcome<nat>)
      requires Valid() && t < |schema| && row < Count(db, t) && c < |schema[t].props| && schema[t].pk != Some(c)
      modifies this
      ensures AsRes(db, o) == SetProp(schema, old(db), t, row, c, v, pol, isDefault, top)
      ensures Valid() && KeysStable(schema, old(db), db)
      decreases top, v, 9, 0
    {
      var p := schema[t].props[c];
      var a := Addr(t, row, c);
      if p.ty.nullable && v.Null? {
        o := SetNullValue(a, p, pol, isDefault);
      } else if !p.ty.list {
        o := UpdateValue(a, p, v, pol, top);
      } else if p.ty.base == LinkingObjects {
        o := Bad(ReadOnlyProperty(t, c));
      } else {
        o := AssignList(a, p, v, pol, top);
      }
      SetPropSound(schema, old(db), t, row, c, v, pol, isDefault, top);
    }

    /** The null branch; a null default leaves a link column alone. */
    method SetNullValue(a: Addr, p: Property, pol: Policy, isDefault: bool) returns (o: Outcome<nat>)
      modifies this
      ensures AsRes(db, o) == SetNull(old(db), a, p.ty, pol, isDefault)
    {
      if p.ty.list {
        return Bad(NullNotAllowed);
      }
      if pol != UpdateModified || Get(db, a) != CNull {
        if p.ty.base != Object || !isDefault {
          db := Do(db, a, SetTo(CNull));
        }
      }
      return Good(a.r);
    }

    /** `ValueUpdater`: the old content is read before the new one is unboxed. */
    method UpdateValue(a: Addr, p: Property, v: Value, pol: Policy, top: bool) returns (o: Outcome<nat>)
      requires Valid() && a in db.cells && p == schema[a.t].props[a.c] && !p.ty.list && schema[a.t].pk != Some(a.c)
      modifies this
      ensures AsRes(db, o) == Update(schema, old(db), a, p, v, pol, top)
      ensures Valid()
      decreases top, v, 8, 0
    {
      UpdateSound(schema, db, a, p, v, pol, top);
      var prev := Get(db, a);
      var u := Unbox(p, v, pol, LinkedRow(prev), top);
      if u.Bad? {
        return Bad(u.error);
      }
      if pol != UpdateModified || Differs(prev, u.val) {
        db := Do(db, a, SetTo(u.val));
      }
      return Good(a.r);
    }

    /** The context's `unbox`. */
    method Unbox(p: Property, v: Value, pol: Policy, cur: Option<nat>, top: bool) returns (o: Outcome<Cell>)
      requires Valid() && ValidProperty(|schema|, p)
      modifies this
      ensures AsRes(db, o) == UnboxItem(schema, old(db), p, v, pol, cur, top)
      ensures Valid()
      decreases top, v, 6, 0
    {
      if p.ty.base != Object {
        return UnboxScalar(p.ty, v);
      }
      if v.Managed? {
        if v.table != p.target {
          return Bad(TypeMismatch);
        }
        if v.row >= Count(db, p.target) {
          return Bad(InvalidRow);
        }
        return Good(CLink(v.row));
      }
      var created := CreateObject(p.target, v, pol, cur, top);
      return if created.Good? then Good(CLink(created.val)) else Bad(created.error);
    }

    /** `List::assign`. */
    method AssignList(a: Addr, p: Property, v: Value, pol: Policy, top: bool) returns (o: Outcome<nat>)
      requires SoundList(schema, db, a, p)
      modifies this
      ensures AsRes(db, o) == Assign(schema, old(db), a, p, v, pol, top)
      ensures SoundList(schema, db, a, p)
      decreases top, v, 8, 0
    {
      if v.SameList? {
        return Good(a.r);
      }
      if v.Null? {
        EditSound(schema, db, a, p, ClearItems);
        db := Do(db, a, ClearItems);
        return Good(a.r);
      }
      if !v.Values? {
        return Bad(TypeMismatch);
      }
      if pol == UpdateModified {
        o := OverwriteItems(a, p, v, top);
      } else {
        o := RefillItems(a, p, v, pol, top);
      }
    }

    /** Clear the list, then append the elements. */
    method RefillItems(a: Addr, p: Property, v: Value, pol: Policy, top: bool) returns (o: Outcome<nat>)
      requires SoundList(schema, db, a, p) && v.Values?
      modifies this
      ensures AsRes(db, o) == Refill(schema, Do(old(db), a, ClearItems), a, p, v, pol, 0, top)
      ensures SoundList(schema, db, a, p)
      decreases top, v, 7, 0
    {
      EditSound(schema, db, a, p, ClearItems);
      db := Do(db, a, ClearItems);
      var i := 0;
      while i < |v.elems|
        invariant 0 <= i <= |v.elems| && SoundList(schema, db, a, p)
        invariant Refill(schema, db, a, p, v, pol, i, top) == Refill(schema, Do(old(db), a, ClearItems), a, p, v, pol, 0, top)
      {
        AddedSound(schema, db, a, p, v.elems[i], pol, top);
        var u := Unbox(p, v.elems[i], pol, Some(0), top);
        if u.Bad? {
          return Bad(u.error);
        }
        db := Do(db, a, AddItem(u.val));
        i := i + 1;
      }
      return Good(a.r);
    }

    /** Overwrite the common positions where they differ, append the rest, and drop the
        surplus from the back. */
    method OverwriteItems(a: Addr, p: Property, v: Value, top: bool) returns (o: Outcome<nat>)
      requires SoundList(schema, db, a, p) && v.Values?
      modifies this
      ensures AsRes(db, o) == AssignInPlace(schema, old(db), a, p, v, 0, |Items(old(db), a)|, top)
      ensures SoundList(schema, db, a, p)
      decreases top, v, 7, 0
    {
      var sz: nat := |Items(db, a)|;
      ghost var goal := AssignInPlace(schema, old(db), a, p, v, 0, sz, top);
      var index := 0;
      while index < |v.elems|
        invariant 0 <= index <= |v.elems| && SoundList(schema, db, a, p)
        invariant AssignInPlace(schema, db, a, p, v, index, sz, top) == goal
      {
        var placed := PlaceItem(a, p, v.elems[index], index, sz, top);
        if placed.Bad? {
          return Bad(placed.error);
        }
        index := index + 1;
      }
      TrimSound(schema, db, a, p, index, sz);
      o := TrimItems(a, index, sz);
    }

    /** The tail loop of `assign`. */
    method TrimItems(a: Addr, index: nat, size: nat) returns (o: Outcome<nat>)
      modifies this
      ensures AsRes(db, o) == Trim(old(db), a, index, size)
    {
      ghost var goal := Trim(db, a, index, size);
      var sz: nat := size;
      while index < sz
        invariant Trim(db, a, index, sz) == goal
        decreases sz
      {
        sz := sz - 1;
        if sz >= |Items(db, a)| {
          return Bad(OutOfBounds);
        }
        db := Do(db, a, DropItem(sz));
      }
      return Good(a.r);
    }

    /** `set_if_different` for a position that exists, `add` beyond the end. */
    method PlaceItem(a: Addr, p: Property, e: Value, i: nat, sz: nat, top: bool) returns (o: Outcome<nat>)
      requires SoundList(schema, db, a, p)
      modifies this
      ensures AsRes(db, o) == Place(schema, old(db), a, p, e, i, sz, top)
      ensures SoundList(schema, db, a, p)
      decreases top, e, 8, 0
    {
      PlaceSound(schema, db, a, p, e, i, sz, top);
      if i >= sz {
        var added := Unbox(p, e, UpdateModified, Some(0), top);
        if added.Bad? {
          return Bad(added.error);
        }
        db := Do(db, a, AddItem(added.val));
        return Good(a.r);
      }
      if i >= |Items(db, a)| {
        return Bad(OutOfBounds);
      }
      var prev := Items(db, a)[i];
      var u := Unbox(p, e, UpdateModified, LinkedRow(prev), top);
      if u.Bad? {
        return Bad(u.error);
      }
      if Differs(prev, u.val) {
        if i >= |Items(db, a)| {
          return Bad(OutOfBounds);
        }
        db := Do(db, a, PutItem(i, u.val));
      }
      return Good(a.r);
    }

    /** `Results::set_property_value`: take a snapshot of the matches, then set each row. */
    method SetOnResults(t: nat, query: (State, nat) -> bool, c: nat, v: Value) returns (o: Outcome<nat>)
      requires Valid() && t < |schema|
      modifies this
      ensures AsRes(db, o) == Batch(schema, old(db), t, Snapshot(old(db), t, query, 0), c, v)
      ensures Valid() && KeysStable(schema, old(db), db)
      ensures c < |schema[t].props| && schema[t].pk != Some(c) && PlainValue(schema[t].props[c], v) ==>
        (o.Good? <==> Snapshot(old(db), t, query, 0) == [] || PlainFits(schema, old(db), schema[t].props[c], v))
    {
      if c >= |schema[t].props| {
        return Bad(InvalidProperty(t));
      }
      if schema[t].pk == Some(c) {
        return Bad(ModifyPrimaryKey(t));
      }
      var rows := Snapshot(db, t, query, 0);
      ghost var goal := BatchFrom(schema, db, t, rows, c, v, 0);
      BatchSound(schema, db, t, rows, c, v);
      if PlainValue(schema[t].props[c], v) {
        BatchSetsTheMatches(schema, db, t, query, c, v, 0);
      }
      var i := 0;
      while i < |rows|
        invariant 0 <= i <= |rows| && Valid()
        invariant BatchFrom(schema, db, t, rows, c, v, i) == goal
      {
        if rows[i] >= Count(db, t) {
          return Bad(InvalidRow);
        }
        var done := SetPropertyImpl(t, rows[i], c, v, ForceCreate, false, true);
        if done.Bad? {
          return Bad(done.error);
        }
        i := i + 1;
      }
      return Good(i);
    }
  }
}
