// When `create` and property writes succeed, and what they complain about otherwise: exactly
// the first complaint of a check that looks at the schema, the value and the database as it
// was before the call, and creates nothing.
module Validation {
  import opened Options
  import opened PropertyTypes
  import opened Store
  import opened Engine
  import opened Framing
  import opened FrameProofs
  import opened Policies
  import opened Reading
  import opened Idempotence

  // ----- the check

  predicate ScalarFits(ty: PropertyType, v: Value) {
    (v.Null? && ty.nullable) || (v.Scalar? && HasType(v.prim, ty.base))
  }

  /** The key must be there and of its type: the supplied value, else the default, else null. */
  function KeyComplaint(s: Schema, t: nat, v: Value): Option<Error>
    requires t < |s|
  {
    if s[t].pk.None? then None
    else
      var c := s[t].pk.value;
      var p := s[t].props[c];
      var f := if FieldOf(v, c).Given? then FieldOf(v, c) else p.dflt;
      if p.ty.nullable && (f.Absent? || f.value.Null?) then None
      else if f.Absent? then Some(MissingPropertyValue(t, c))
      else if f.value.Null? then Some(NullKey(t))
      else if ScalarFits(p.ty, f.value) then None
      else Some(TypeMismatch)
  }

  /** The key as it is stored. */
  function KeyCell(s: Schema, t: nat, v: Value): Cell
    requires t < |s| && s[t].pk.Some?
  {
    var c := s[t].pk.value;
    var f := if FieldOf(v, c).Given? then FieldOf(v, c) else s[t].props[c].dflt;
    if f.Given? && f.value.Scalar? then CPrim(f.value.prim) else CNull
  }

  /** Whether the object will be a new row; `cur` is the row that an object without a key is
      to reuse, if any. */
  predicate IsNew(s: Schema, x: State, t: nat, v: Value, cur: Option<nat>)
    requires t < |s|
  {
    if s[t].pk.Some? then Find(s, x, t, KeyCell(s, t, v)).None? else cur.None?
  }

  /** The first complaint about an object. Keys are looked up in `x`; managed objects must be
      rows of `k`. With `force`, a key must not be taken. */
  function Complaint(s: Schema, x: State, k: State, t: nat, v: Value, force: bool, cur: Option<nat>, top: bool): Option<Error>
    requires t < |s|
    decreases top, v, 5, 0
  {
    if !v.Unmanaged? then Some(TypeMismatch)
    else if KeyComplaint(s, t, v).Some? then KeyComplaint(s, t, v)
    else if s[t].pk.Some? && force && !IsNew(s, x, t, v, cur) then Some(DuplicateKey(t, KeyCell(s, t, v)))
    else if s[t].pk.None? && cur.Some? && cur.value >= Count(x, t) then Some(InvalidRow)
    else FieldsComplaint(s, x, k, t, v, force, IsNew(s, x, t, v, cur), top, 0)
  }

  /** The first complaint about the properties from `i` on. */
  function FieldsComplaint(s: Schema, x: State, k: State, t: nat, v: Value, force: bool, created: bool, top: bool, i: nat): Option<Error>
    requires t < |s| && i <= |s[t].props|
    decreases top, v, 4, |s[t].props| - i
  {
    if i == |s[t].props| then None
    else if FieldComplaint(s, x, k, t, v, force, created, top, i).Some? then FieldComplaint(s, x, k, t, v, force, created, top, i)
    else FieldsComplaint(s, x, k, t, v, force, created, top, i + 1)
  }

  /** A required property that is to be set, and is neither supplied nor has a default other
      than null. Objects that are given as arrays may leave properties out. */
  predicate Lacks(s: Schema, t: nat, v: Value, created: bool, top: bool, i: nat)
    requires t < |s| && i < |s[t].props|
  {
    var f := Supplied(s, t, v, i, top);
    && s[t].pk != Some(i) && (FieldOf(v, i).Given? || created)
    && !s[t].props[i].ty.nullable && !s[t].props[i].ty.list
    && (f.Absent? || f.value.Null?)
    && !(v.Unmanaged? && v.isArray)
  }

  function FieldComplaint(s: Schema, x: State, k: State, t: nat, v: Value, force: bool, created: bool, top: bool, i: nat): Option<Error>
    requires t < |s| && i < |s[t].props|
    decreases top, v, 3, 0
  {
    var f := Supplied(s, t, v, i, top);
    if Lacks(s, t, v, created, top, i) then Some(MissingPropertyValue(t, i))
    else if s[t].pk == Some(i) || f.Absent? || (FieldOf(v, i).Absent? && !created) then None
    else ValueComplaint(s, x, k, t, i, f.value, force, SubTop(v, i, top))
  }

  /** The first complaint about a value for property `c`. */
  function ValueComplaint(s: Schema, x: State, k: State, t: nat, c: nat, v: Value, force: bool, top: bool): Option<Error>
    requires t < |s| && c < |s[t].props|
    decreases top, v, 9, 0
  {
    var p := s[t].props[c];
    if !p.ty.list then (if p.ty.nullable && v.Null? then None else ItemComplaint(s, x, k, p, v, force, top))
    else if p.ty.nullable && v.Null? then Some(NullNotAllowed)
    else if p.ty.base == LinkingObjects then Some(ReadOnlyProperty(t, c))
    else if v.SameList? || v.Null? then None
    else if !v.Values? then Some(TypeMismatch)
    else ElemsComplaint(s, x, k, p, v, force, top, 0)
  }

  function ElemsComplaint(s: Schema, x: State, k: State, p: Property, v: Value, force: bool, top: bool, i: nat): Option<Error>
    requires ValidProperty(|s|, p) && v.Values? && i <= |v.elems|
    decreases top, v, 7, |v.elems| - i
  {
    if i == |v.elems| then None
    else if ItemComplaint(s, x, k, p, v.elems[i], force, top).Some? then ItemComplaint(s, x, k, p, v.elems[i], force, top)
    else ElemsComplaint(s, x, k, p, v, force, top, i + 1)
  }

  function ItemComplaint(s: Schema, x: State, k: State, p: Property, v: Value, force: bool, top: bool): Option<Error>
    requires ValidProperty(|s|, p)
    decreases top, v, 6, 0
  {
    if p.ty.base != Object then (if ScalarFits(p.ty, v) then None else Some(TypeMismatch))
    else if !v.Managed? then Complaint(s, x, k, p.target, v, force, None, top)
    else if v.table != p.target then Some(TypeMismatch)
    else if v.row >= Count(k, p.target) then Some(InvalidRow)
    else None
  }

  // ----- the run meets the check

  function ErrorOf<T>(r: Res<T>): Option<Error> {
    if r.Ok? then None else Some(r.error)
  }

  ghost predicate NoMoreRows(x: State, k: State) {
    forall t {:trigger Count(k, t)} :: Count(x, t) <= Count(k, t)
  }

  ghost function Below(k: State): iset<State> {
    iset x: State | NoMoreRows(x, k)
  }

  ghost predicate Upto(x: State, k: State) {
    x in Below(k)
  }

  /** `k` has at least the rows of a state that was reached, and exactly those of a state in
      which an exception was raised. */
  ghost predicate Bounds<T>(r: Res<T>, k: State) {
    Upto(r.st, k) && (r.Err? ==> Upto(k, r.st))
  }

  ghost function RowwisePairs(s: Schema, names: set<Name>): iset<(State, State)> {
    iset f: (State, State) | SteadyRows(s, f.0, f.1, names)
  }

  /** From `x` to `y`, the keys with these names find the same. */
  ghost predicate Rowwise(s: Schema, x: State, y: State, names: set<Name>) {
    (x, y) in RowwisePairs(s, names)
  }

  lemma RowwiseStep(s: Schema, x: State, y: State, z: State, m: set<Name>, o: Own, names: set<Name>, rest: set<Name>)
    requires Rowwise(s, x, y, names) && Wf(s, y) && Frame(s, y, z, m, o) && Distinct(s, m, rest) && rest <= names
    ensures Rowwise(s, x, z, rest)
  {
    FrameSteadyRows(s, y, z, m, o, rest);
    forall t ensures Count(x, t) <= Count(z, t) {
      assert Count(x, t) <= Count(y, t);
    }
    forall t, key | 0 <= t < |s| && s[t].pk.Some? && Name(t, key) in rest
      ensures Find(s, x, t, key) == Find(s, z, t, key)
    {
      assert Find(s, x, t, key) == Find(s, y, t, key);
    }
  }

  lemma RowwiseLess(s: Schema, x: State, y: State, names: set<Name>, fewer: set<Name>)
    requires Rowwise(s, x, y, names) && fewer <= names
    ensures Rowwise(s, x, y, fewer)
  {
  }

  lemma UptoTrans(x: State, y: State, k: State)
    requires Upto(x, y) && Upto(y, k)
    ensures Upto(x, k)
  {
    forall t ensures Count(x, t) <= Count(k, t) {
      assert Count(x, t) <= Count(y, t) <= Count(k, t);
    }
  }

  lemma KeyComplaintIs(s: Schema, t: nat, v: Value)
    requires t < |s|
    ensures KeyComplaint(s, t, v) == if KeyOf(s, t, v).Good? then None else Some(KeyOf(s, t, v).error)
    ensures s[t].pk.Some? && KeyOf(s, t, v).Good? ==> KeyOf(s, t, v).val == KeyCell(s, t, v)
  {
  }

  /** Locating the row raises what the check says about key and row. */
  lemma LocateMeets(s: Schema, x: State, y: State, k: State, t: nat, v: Value, pol: Policy, cur: Option<nat>, top: bool)
    requires t < |s| && v.Unmanaged? && pol != UpdateModified && Rowwise(s, x, y, Names(s, t, v, top))
    ensures var l := Locate(s, y, t, v, pol, cur); var c := Complaint(s, x, k, t, v, pol == ForceCreate, None, top);
      && (l.Err? ==> c == Some(l.error))
      && (l.Ok? ==> l.val.created == IsNew(s, x, t, v, None))
      && (l.Ok? ==> c == FieldsComplaint(s, x, k, t, v, pol == ForceCreate, l.val.created, top, 0))
  {
    KeyComplaintIs(s, t, v);
    if s[t].pk.Some? && KeyOf(s, t, v).Good? {
      assert Name(t, KeyOf(s, t, v).val) in Names(s, t, v, top);
      assert Find(s, x, t, KeyOf(s, t, v).val) == Find(s, y, t, KeyOf(s, t, v).val);
    }
  }

  lemma {:induction false} CreateMeets(s: Schema, x: State, y: State, k: State, t: nat, v: Value, pol: Policy, cur: Option<nat>, top: bool)
    requires Wf(s, y) && t < |s| && pol != UpdateModified && Fresh(s, t, v, top, NoRepeatedKeys)
    requires Rowwise(s, x, y, Names(s, t, v, top)) && Bounds(Create(s, y, t, v, pol, cur, top), k)
    ensures ErrorOf(Create(s, y, t, v, pol, cur, top)) == Complaint(s, x, k, t, v, pol == ForceCreate, None, top)
    decreases top, v, 5, 0
  {
    if v.Unmanaged? {
      var l := Locate(s, y, t, v, pol, cur);
      LocateMeets(s, x, y, k, t, v, pol, cur, top);
      LocateFrame(s, y, t, v, pol, cur);
      if l.Ok? {
        RowwiseStep(s, x, y, l.st, {Name(t, KeyOf(s, t, v).val)}, NOTHING, Names(s, t, v, top), FieldNames(s, t, v, top, 0));
        PopulateMeets(s, x, l.st, k, t, l.val, v, pol, top, 0);
      }
    }
  }

  lemma {:induction false} PopulateMeets(s: Schema, x: State, y: State, k: State, t: nat, slot: Slot, v: Value, pol: Policy, top: bool, i: nat)
    requires Wf(s, y) && t < |s| && i <= |s[t].props| && slot.row < Count(y, t) && pol != UpdateModified
    requires FieldsFresh(s, t, v, top, NoRepeatedKeys, i) && Rowwise(s, x, y, FieldNames(s, t, v, top, i))
    requires Bounds(Populate(s, y, t, slot, v, pol, top, i), k)
    ensures ErrorOf(Populate(s, y, t, slot, v, pol, top, i)) == FieldsComplaint(s, x, k, t, v, pol == ForceCreate, slot.created, top, i)
    decreases top, v, 4, |s[t].props| - i
  {
    if i < |s[t].props| {
      var l := PopulateOne(s, y, t, slot, v, pol, top, i);
      PopulateIs(s, y, t, slot, v, pol, top, i);
      PopulateOneBounds(s, y, k, t, slot, v, pol, top, i);
      PopulateOneMeets(s, x, y, k, t, slot, v, pol, top, i);
      if l.Ok? {
        PopulateOneRowwise(s, x, y, t, slot, v, pol, top, i);
        PopulateMeets(s, x, l.st, k, t, slot, v, pol, top, i + 1);
      }
    }
  }

  lemma PopulateOneRowwise(s: Schema, x: State, y: State, t: nat, slot: Slot, v: Value, pol: Policy, top: bool, i: nat)
    requires Wf(s, y) && t < |s| && i < |s[t].props| && slot.row < Count(y, t)
    requires FieldsFresh(s, t, v, top, NoRepeatedKeys, i) && Rowwise(s, x, y, FieldNames(s, t, v, top, i))
    ensures var z := PopulateOne(s, y, t, slot, v, pol, top, i).st;
      Wf(s, z) && slot.row < Count(z, t) && Rowwise(s, x, z, FieldNames(s, t, v, top, i + 1))
  {
    var z := PopulateOne(s, y, t, slot, v, pol, top, i).st;
    PopulateOneFrame(s, y, t, slot, v, pol, top, i);
    RowwiseStep(s, x, y, z, NamesAt(s, t, v, top, i), Own(t, slot.row, i, i + 1), FieldNames(s, t, v, top, i), FieldNames(s, t, v, top, i + 1));
  }

  lemma PopulateOneBounds(s: Schema, y: State, k: State, t: nat, slot: Slot, v: Value, pol: Policy, top: bool, i: nat)
    requires Wf(s, y) && t < |s| && i < |s[t].props| && slot.row < Count(y, t)
    requires Bounds(Populate(s, y, t, slot, v, pol, top, i), k)
    ensures Bounds(PopulateOne(s, y, t, slot, v, pol, top, i), k)
  {
    var l := PopulateOne(s, y, t, slot, v, pol, top, i);
    PopulateIs(s, y, t, slot, v, pol, top, i);
    PopulateOneFrame(s, y, t, slot, v, pol, top, i);
    if l.Ok? {
      PopulateFrame(s, l.st, t, slot, v, pol, top, i + 1);
      UptoTrans(l.st, Populate(s, y, t, slot, v, pol, top, i).st, k);
    }
  }

  lemma {:induction false} PopulateOneMeets(s: Schema, x: State, y: State, k: State, t: nat, slot: Slot, v: Value, pol: Policy, top: bool, i: nat)
    requires Wf(s, y) && t < |s| && i < |s[t].props| && slot.row < Count(y, t) && pol != UpdateModified
    requires FieldsFresh(s, t, v, top, NoRepeatedKeys, i) && Rowwise(s, x, y, FieldNames(s, t, v, top, i))
    requires Bounds(PopulateOne(s, y, t, slot, v, pol, top, i), k)
    ensures ErrorOf(PopulateOne(s, y, t, slot, v, pol, top, i)) == FieldComplaint(s, x, k, t, v, pol == ForceCreate, slot.created, top, i)
    decreases top, v, 3, 0
  {
    var f := Supplied(s, t, v, i, top);
    if s[t].pk != Some(i) && f.Given? && !(FieldOf(v, i).Absent? && !slot.created) && !Lacks(s, t, v, slot.created, top, i) {
      RowwiseLess(s, x, y, FieldNames(s, t, v, top, i), NamesAt(s, t, v, top, i));
      SetPropMeets(s, x, y, k, t, slot.row, i, f.value, pol, FieldOf(v, i).Absent?, SubTop(v, i, top));
    }
  }

  lemma {:induction false} SetPropMeets(s: Schema, x: State, y: State, k: State, t: nat, row: nat, c: nat, v: Value,
                                        pol: Policy, isDefault: bool, top: bool)
    requires Wf(s, y) && t < |s| && c < |s[t].props| && row < Count(y, t) && s[t].pk != Some(c) && pol != UpdateModified
    requires PropFresh(s, s[t].props[c], v, top, NoRepeatedKeys) && Rowwise(s, x, y, PropNames(s, s[t].props[c], v, top))
    requires Bounds(SetProp(s, y, t, row, c, v, pol, isDefault, top), k)
    ensures ErrorOf(SetProp(s, y, t, row, c, v, pol, isDefault, top)) == ValueComplaint(s, x, k, t, c, v, pol == ForceCreate, top)
    decreases top, v, 9, 0
  {
    var p := s[t].props[c];
    var a := Addr(t, row, c);
    assert a in y.cells;
    if !(p.ty.nullable && v.Null?) {
      if !p.ty.list {
        UpdateMeets(s, x, y, k, a, p, v, pol, top);
      } else if p.ty.base != LinkingObjects {
        AssignMeets(s, x, y, k, a, p, v, pol, top);
      }
    }
  }

  lemma {:induction false} UpdateMeets(s: Schema, x: State, y: State, k: State, a: Addr, p: Property, v: Value, pol: Policy, top: bool)
    requires Wf(s, y) && ValidProperty(|s|, p) && pol != UpdateModified && ElemFresh(s, p, v, top, NoRepeatedKeys)
    requires Rowwise(s, x, y, ElemNames(s, p, v, top)) && Bounds(Update(s, y, a, p, v, pol, top), k)
    ensures ErrorOf(Update(s, y, a, p, v, pol, top)) == ItemComplaint(s, x, k, p, v, pol == ForceCreate, top)
    decreases top, v, 8, 0
  {
    var u := UnboxItem(s, y, p, v, pol, LinkedRow(Get(y, a)), top);
    if u.Ok? {
      SameRowsUpto(u.st, Update(s, y, a, p, v, pol, top).st, k);
    }
    UnboxItemMeets(s, x, y, k, p, v, pol, LinkedRow(Get(y, a)), top);
  }

  lemma SameRowsUpto(x: State, y: State, k: State)
    requires x.rows == y.rows && Upto(y, k)
    ensures Upto(x, k)
  {
    forall t ensures Count(x, t) <= Count(k, t) {
      assert Count(y, t) <= Count(k, t);
    }
  }

  lemma {:induction false} AssignMeets(s: Schema, x: State, y: State, k: State, a: Addr, p: Property, v: Value, pol: Policy, top: bool)
    requires ListColumn(s, y, a) && p == s[a.t].props[a.c] && p.ty.base != LinkingObjects && !(p.ty.nullable && v.Null?)
    requires pol != UpdateModified && PropFresh(s, p, v, top, NoRepeatedKeys) && Rowwise(s, x, y, PropNames(s, p, v, top))
    requires Bounds(Assign(s, y, a, p, v, pol, top), k)
    ensures ErrorOf(Assign(s, y, a, p, v, pol, top)) == ValueComplaint(s, x, k, a.t, a.c, v, pol == ForceCreate, top)
    decreases top, v, 8, 0
  {
    if v.Values? {
      ClearMeets(s, x, y, a, ItemNames(s, p, v, top, 0));
      RefillMeets(s, x, Do(y, a, ClearItems), k, a, p, v, pol, 0, top);
    }
  }

  lemma ClearMeets(s: Schema, x: State, y: State, a: Addr, names: set<Name>)
    requires ListColumn(s, y, a) && Rowwise(s, x, y, names)
    ensures ListColumn(s, Do(y, a, ClearItems), a) && Rowwise(s, x, Do(y, a, ClearItems), names)
  {
    DoFrame(s, y, a, ClearItems);
    RowwiseStep(s, x, y, Do(y, a, ClearItems), {}, OwnCell(a), names, names);
  }

  lemma {:induction false} UnboxItemMeets(s: Schema, x: State, y: State, k: State, p: Property, v: Value, pol: Policy, cur: Option<nat>, top: bool)
    requires Wf(s, y) && ValidProperty(|s|, p) && pol != UpdateModified && ElemFresh(s, p, v, top, NoRepeatedKeys)
    requires Rowwise(s, x, y, ElemNames(s, p, v, top)) && Bounds(UnboxItem(s, y, p, v, pol, cur, top), k)
    ensures ErrorOf(UnboxItem(s, y, p, v, pol, cur, top)) == ItemComplaint(s, x, k, p, v, pol == ForceCreate, top)
    decreases top, v, 6, 0
  {
    if p.ty.base == Object {
      if !v.Managed? {
        assert Bounds(Create(s, y, p.target, v, pol, cur, top), k);
        CreateMeets(s, x, y, k, p.target, v, pol, cur, top);
      } else {
        assert Count(y, p.target) <= Count(k, p.target);
      }
    }
  }

  lemma {:induction false} RefillMeets(s: Schema, x: State, y: State, k: State, a: Addr, p: Property, v: Value, pol: Policy, i: nat, top: bool)
    requires ListColumn(s, y, a) && p == s[a.t].props[a.c] && v.Values? && i <= |v.elems| && pol != UpdateModified
    requires ItemsFresh(s, p, v, top, NoRepeatedKeys, i) && Rowwise(s, x, y, ItemNames(s, p, v, top, i))
    requires Bounds(Refill(s, y, a, p, v, pol, i, top), k)
    ensures ErrorOf(Refill(s, y, a, p, v, pol, i, top)) == ElemsComplaint(s, x, k, p, v, pol == ForceCreate, top, i)
    decreases top, v, 7, |v.elems| - i
  {
    if i < |v.elems| {
      var u := UnboxItem(s, y, p, v.elems[i], pol, Some(0), top);
      RefillBounds(s, y, k, a, p, v, pol, i, top);
      RowwiseLess(s, x, y, ItemNames(s, p, v, top, i), ElemNames(s, p, v.elems[i], top));
      UnboxItemMeets(s, x, y, k, p, v.elems[i], pol, Some(0), top);
      if u.Ok? {
        AddedMeets(s, x, y, a, p, v, pol, i, top);
        RefillMeets(s, x, Do(u.st, a, AddItem(u.val)), k, a, p, v, pol, i + 1, top);
      }
    }
  }

  lemma AddedMeets(s: Schema, x: State, y: State, a: Addr, p: Property, v: Value, pol: Policy, i: nat, top: bool)
    requires ListColumn(s, y, a) && p == s[a.t].props[a.c] && v.Values? && i < |v.elems|
    requires ItemsFresh(s, p, v, top, NoRepeatedKeys, i) && Rowwise(s, x, y, ItemNames(s, p, v, top, i))
    requires UnboxItem(s, y, p, v.elems[i], pol, Some(0), top).Ok?
    ensures var u := UnboxItem(s, y, p, v.elems[i], pol, Some(0), top); var z := Do(u.st, a, AddItem(u.val));
      ListColumn(s, z, a) && Rowwise(s, x, z, ItemNames(s, p, v, top, i + 1))
  {
    var u := UnboxItem(s, y, p, v.elems[i], pol, Some(0), top);
    var z := Do(u.st, a, AddItem(u.val));
    var names := ElemNames(s, p, v.elems[i], top);
    UnboxItemFrame(s, y, p, v.elems[i], pol, Some(0), top);
    ThenEdit(s, y, u.st, a, AddItem(u.val), names);
    RowwiseStep(s, x, y, z, names, OwnCell(a), ItemNames(s, p, v, top, i), ItemNames(s, p, v, top, i + 1));
  }

  lemma RefillBounds(s: Schema, y: State, k: State, a: Addr, p: Property, v: Value, pol: Policy, i: nat, top: bool)
    requires ListColumn(s, y, a) && p == s[a.t].props[a.c] && v.Values? && i < |v.elems|
    requires Bounds(Refill(s, y, a, p, v, pol, i, top), k)
    ensures Bounds(UnboxItem(s, y, p, v.elems[i], pol, Some(0), top), k)
  {
    var u := UnboxItem(s, y, p, v.elems[i], pol, Some(0), top);
    if u.Ok? {
      var z := Do(u.st, a, AddItem(u.val));
      UnboxItemFrame(s, y, p, v.elems[i], pol, Some(0), top);
      ThenEdit(s, y, u.st, a, AddItem(u.val), ElemNames(s, p, v.elems[i], top));
      RefillFrame(s, z, a, v, pol, i + 1, top);
      RefillAddsRows(s, u.st, z, a, p, v, pol, i, top, k);
    }
  }

  lemma RefillAddsRows(s: Schema, u: State, z: State, a: Addr, p: Property, v: Value, pol: Policy, i: nat, top: bool, k: State)
    requires ValidProperty(|s|, p) && v.Values? && i < |v.elems| && z.rows == u.rows
    requires KeysStable(s, z, Refill(s, z, a, p, v, pol, i + 1, top).st) && Upto(Refill(s, z, a, p, v, pol, i + 1, top).st, k)
    ensures Upto(u, k)
  {
    var r := Refill(s, z, a, p, v, pol, i + 1, top).st;
    forall t ensures Count(u, t) <= Count(k, t) {
      assert Count(z, t) == Count(u, t) && Count(z, t) <= Count(r, t) <= Count(k, t);
    }
  }

  // ----- the check, property by property

  /** The object can be created or updated: its key is there and of its type, and with `force`
      not taken; a row to be reused exists; and every property can be set. */
  predicate Accepts(s: Schema, x: State, k: State, t: nat, v: Value, force: bool, cur: Option<nat>, top: bool)
    requires t < |s|
    decreases top, v, 5, 0
  {
    && v.Unmanaged? && KeyFits(s, t, v)
    && (s[t].pk.Some? && force ==> IsNew(s, x, t, v, cur))
    && (s[t].pk.None? && cur.Some? ==> cur.value < Count(x, t))
    && FieldsAccepted(s, x, k, t, v, force, IsNew(s, x, t, v, cur), top, 0)
  }

  /** Every property from `i` on can be set. */
  predicate FieldsAccepted(s: Schema, x: State, k: State, t: nat, v: Value, force: bool, created: bool, top: bool, i: nat)
    requires t < |s|
    decreases top, v, 4, 0
  {
    forall c {:trigger FieldAccepted(s, x, k, t, v, force, created, top, c)} :: i <= c < |s[t].props| ==>
      FieldAccepted(s, x, k, t, v, force, created, top, c)
  }

  predicate KeyFits(s: Schema, t: nat, v: Value)
    requires t < |s|
  {
    s[t].pk.Some? ==>
      var c := s[t].pk.value;
      var f := if FieldOf(v, c).Given? then FieldOf(v, c) else s[t].props[c].dflt;
      if f.Given? then ScalarFits(s[t].props[c].ty, f.value) else s[t].props[c].ty.nullable
  }

  /** A property is left alone, or is optional or a list (or the object an array) and missing,
      or takes its value. */
  predicate FieldAccepted(s: Schema, x: State, k: State, t: nat, v: Value, force: bool, created: bool, top: bool, c: nat)
    requires t < |s| && c < |s[t].props|
    decreases top, v, 3, 0
  {
    var p := s[t].props[c];
    var f := Supplied(s, t, v, c, top);
    || s[t].pk == Some(c)
    || (FieldOf(v, c).Absent? && !created)
    || (f.Absent? && (p.ty.nullable || p.ty.list || (v.Unmanaged? && v.isArray)))
    || (f.Given? && ValueAccepted(s, x, k, p, f.value, force, SubTop(v, c, top)))
  }

  predicate ValueAccepted(s: Schema, x: State, k: State, p: Property, v: Value, force: bool, top: bool)
    requires ValidProperty(|s|, p)
    decreases top, v, 9, 0
  {
    if !p.ty.list then (p.ty.nullable && v.Null?) || ItemAccepted(s, x, k, p, v, force, top)
    else
      && p.ty.base != LinkingObjects
      && ( || v.SameList?
           || (v.Null? && !p.ty.nullable)
           || (v.Values? && forall j :: 0 <= j < |v.elems| ==> ItemAccepted(s, x, k, p, v.elems[j], force, top)))
  }

  predicate ItemAccepted(s: Schema, x: State, k: State, p: Property, v: Value, force: bool, top: bool)
    requires ValidProperty(|s|, p)
    decreases top, v, 6, 0
  {
    if p.ty.base != Object then ScalarFits(p.ty, v)
    else if v.Managed? then v.table == p.target && v.row < Count(k, p.target)
    else Accepts(s, x, k, p.target, v, force, None, top)
  }

  lemma {:induction false} AcceptsIff(s: Schema, x: State, k: State, t: nat, v: Value, force: bool, cur: Option<nat>, top: bool)
    requires t < |s|
    ensures Complaint(s, x, k, t, v, force, cur, top).None? <==> Accepts(s, x, k, t, v, force, cur, top)
    decreases top, v, 5, 0
  {
    if v.Unmanaged? {
      FieldsIff(s, x, k, t, v, force, IsNew(s, x, t, v, cur), top, 0);
    }
  }

  lemma {:induction false} FieldsIff(s: Schema, x: State, k: State, t: nat, v: Value, force: bool, created: bool, top: bool, i: nat)
    requires t < |s| && i <= |s[t].props|
    ensures FieldsComplaint(s, x, k, t, v, force, created, top, i).None? <==> FieldsAccepted(s, x, k, t, v, force, created, top, i)
    decreases top, v, 4, |s[t].props| - i
  {
    if i < |s[t].props| {
      FieldIff(s, x, k, t, v, force, created, top, i);
      FieldsIff(s, x, k, t, v, force, created, top, i + 1);
    }
  }

  lemma {:induction false} FieldIff(s: Schema, x: State, k: State, t: nat, v: Value, force: bool, created: bool, top: bool, i: nat)
    requires t < |s| && i < |s[t].props|
    ensures FieldComplaint(s, x, k, t, v, force, created, top, i).None? <==> FieldAccepted(s, x, k, t, v, force, created, top, i)
    decreases top, v, 3, 0
  {
    var f := Supplied(s, t, v, i, top);
    if f.Given? {
      ValueIff(s, x, k, t, i, f.value, force, SubTop(v, i, top));
    }
  }

  lemma {:induction false} ValueIff(s: Schema, x: State, k: State, t: nat, c: nat, v: Value, force: bool, top: bool)
    requires t < |s| && c < |s[t].props|
    ensures ValueComplaint(s, x, k, t, c, v, force, top).None? <==> ValueAccepted(s, x, k, s[t].props[c], v, force, top)
    ensures v.Null? && !s[t].props[c].ty.nullable && !s[t].props[c].ty.list ==> !ValueAccepted(s, x, k, s[t].props[c], v, force, top)
    decreases top, v, 9, 0
  {
    var p := s[t].props[c];
    if !p.ty.list {
      ItemIff(s, x, k, p, v, force, top);
    } else if v.Values? {
      ElemsIff(s, x, k, p, v, force, top, 0);
    }
  }

  lemma {:induction false} ElemsIff(s: Schema, x: State, k: State, p: Property, v: Value, force: bool, top: bool, i: nat)
    requires ValidProperty(|s|, p) && v.Values? && i <= |v.elems|
    ensures ElemsComplaint(s, x, k, p, v, force, top, i).None? <==>
      forall j :: i <= j < |v.elems| ==> ItemAccepted(s, x, k, p, v.elems[j], force, top)
    decreases top, v, 7, |v.elems| - i
  {
    if i < |v.elems| {
      ItemIff(s, x, k, p, v.elems[i], force, top);
      ElemsIff(s, x, k, p, v, force, top, i + 1);
    }
  }

  lemma {:induction false} ItemIff(s: Schema, x: State, k: State, p: Property, v: Value, force: bool, top: bool)
    requires ValidProperty(|s|, p)
    ensures ItemComplaint(s, x, k, p, v, force, top).None? <==> ItemAccepted(s, x, k, p, v, force, top)
    decreases top, v, 6, 0
  {
    if p.ty.base == Object && !v.Managed? {
      AcceptsIff(s, x, k, p.target, v, force, None, top);
    }
  }

  // ----- more rows, fewer complaints

  lemma {:induction false} AcceptsMore(s: Schema, x: State, k: State, k': State, t: nat, v: Value, force: bool, cur: Option<nat>, top: bool)
    requires t < |s| && Accepts(s, x, k, t, v, force, cur, top) && Upto(k, k')
    ensures Accepts(s, x, k', t, v, force, cur, top)
    decreases top, v, 5, 0
  {
    var created := IsNew(s, x, t, v, cur);
    forall c | 0 <= c < |s[t].props| ensures FieldAccepted(s, x, k', t, v, force, created, top, c) {
      FieldMore(s, x, k, k', t, v, force, created, top, c);
    }
  }

  lemma {:induction false} FieldMore(s: Schema, x: State, k: State, k': State, t: nat, v: Value, force: bool, created: bool, top: bool, c: nat)
    requires t < |s| && c < |s[t].props| && FieldAccepted(s, x, k, t, v, force, created, top, c) && Upto(k, k')
    ensures FieldAccepted(s, x, k', t, v, force, created, top, c)
    decreases top, v, 3, 0
  {
    var f := Supplied(s, t, v, c, top);
    if f.Given? && ValueAccepted(s, x, k, s[t].props[c], f.value, force, SubTop(v, c, top)) {
      ValueMore(s, x, k, k', s[t].props[c], f.value, force, SubTop(v, c, top));
    }
  }

  lemma {:induction false} ValueMore(s: Schema, x: State, k: State, k': State, p: Property, v: Value, force: bool, top: bool)
    requires ValidProperty(|s|, p) && ValueAccepted(s, x, k, p, v, force, top) && Upto(k, k')
    ensures ValueAccepted(s, x, k', p, v, force, top)
    decreases top, v, 9, 0
  {
    if !p.ty.list {
      if !(p.ty.nullable && v.Null?) {
        ItemMore(s, x, k, k', p, v, force, top);
      }
    } else if v.Values? {
      forall j | 0 <= j < |v.elems| ensures ItemAccepted(s, x, k', p, v.elems[j], force, top) {
        ItemMore(s, x, k, k', p, v.elems[j], force, top);
      }
    }
  }

  lemma {:induction false} ItemMore(s: Schema, x: State, k: State, k': State, p: Property, v: Value, force: bool, top: bool)
    requires ValidProperty(|s|, p) && ItemAccepted(s, x, k, p, v, force, top) && Upto(k, k')
    ensures ItemAccepted(s, x, k', p, v, force, top)
    decreases top, v, 6, 0
  {
    if p.ty.base == Object {
      if v.Managed? {
        assert Count(k, p.target) <= Count(k', p.target);
      } else {
        AcceptsMore(s, x, k, k', p.target, v, force, None, top);
      }
    }
  }

  // ----- main results

  /** The row that an object without a key reuses. */
  function Reused(pol: Policy, cur: Option<nat>): Option<nat> {
    if pol == UpdateModified then cur else None
  }

  lemma RowwiseRefl(s: Schema, x: State, names: set<Name>)
    ensures Rowwise(s, x, x, names) && Upto(x, x)
  {
  }

  lemma SameRowsBounds<T>(r: Res<T>, k: State)
    requires r.st.rows == k.rows
    ensures Bounds(r, k)
  {
    SameRowsUpto(r.st, k, k) by { RowwiseRefl([], k, {}); }
    SameRowsUpto(k, r.st, r.st) by { RowwiseRefl([], r.st, {}); }
  }

  /** `create` raises exactly the first complaint of the check, and succeeds if there is none. */
  lemma CreateOutcome(s: Schema, x: State, t: nat, v: Value, pol: Policy, cur: Option<nat>)
    requires Wf(s, x) && t < |s| && Fresh(s, t, v, true, RuleFor(pol))
    ensures var r := Create(s, x, t, v, pol, cur, true);
      ErrorOf(r) == Complaint(s, x, r.st, t, v, pol == ForceCreate, Reused(pol, cur), true)
  {
    var r := Create(s, x, t, v, pol, cur, true);
    if pol == UpdateModified {
      FreshLess(s, t, v, true, NoRepeatedKeys);
      FreshLess(s, t, v, true, NoAncestors);
    }
    if pol == UpdateModified && s[t].pk.None? && cur.Some? {
      ReuseOutcome(s, x, t, v, cur);
    } else {
      var q := Create(s, x, t, v, if pol == UpdateModified then UpdateAll else pol, cur, true);
      if pol == UpdateModified {
        PoliciesAgree(s, x, t, v, cur, cur);
      }
      SameRowsBounds(q, r.st);
      RowwiseRefl(s, x, Names(s, t, v, true));
      CreateMeets(s, x, x, r.st, t, v, if pol == UpdateModified then UpdateAll else pol, cur, true);
      KeyedIgnoresRow(s, x, r.st, t, v, pol, cur);
    }
  }

  lemma KeyedIgnoresRow(s: Schema, x: State, k: State, t: nat, v: Value, pol: Policy, cur: Option<nat>)
    requires t < |s| && (s[t].pk.Some? || Reused(pol, cur).None?)
    ensures Complaint(s, x, k, t, v, pol == ForceCreate, Reused(pol, cur), true) == Complaint(s, x, k, t, v, pol == ForceCreate, None, true)
  {
  }

  /** An object without a key that reuses a row. */
  lemma ReuseOutcome(s: Schema, x: State, t: nat, v: Value, cur: Option<nat>)
    requires Wf(s, x) && t < |s| && s[t].pk.None? && cur.Some? && Fresh(s, t, v, true, NoRepeatedKeys) && Fresh(s, t, v, true, NoAncestors)
    ensures var r := Create(s, x, t, v, UpdateModified, cur, true);
      ErrorOf(r) == Complaint(s, x, r.st, t, v, false, cur, true)
  {
    var r := Create(s, x, t, v, UpdateModified, cur, true);
    SameRowsBounds(r, r.st);
    RowwiseRefl(s, x, Names(s, t, v, true));
    ReuseMeets(s, x, x, r.st, t, v, cur);
  }

  lemma ReuseMeets(s: Schema, x: State, y: State, k: State, t: nat, v: Value, cur: Option<nat>)
    requires Wf(s, y) && t < |s| && s[t].pk.None? && cur.Some? && Fresh(s, t, v, true, NoRepeatedKeys) && Fresh(s, t, v, true, NoAncestors)
    requires Rowwise(s, x, y, Names(s, t, v, true)) && Count(x, t) == Count(y, t) && Bounds(Create(s, y, t, v, UpdateModified, cur, true), k)
    ensures ErrorOf(Create(s, y, t, v, UpdateModified, cur, true)) == Complaint(s, x, k, t, v, false, cur, true)
  {
    if v.Unmanaged? && cur.value < Count(y, t) {
      var r := Create(s, y, t, v, UpdateModified, cur, true);
      var slot := Slot(cur.value, false);
      var q := Populate(s, y, t, slot, v, UpdateAll, true, 0);
      assert Agree(s, y, y, {});
      assert Apart(s, y, {}, {NameAt(s, y, t, slot.row)} + FieldNames(s, t, v, true, 0));
      PopulateSame(s, y, y, t, slot, v, true, 0, {});
      BoundsSame(r, q, k);
      RowwiseLess(s, x, y, Names(s, t, v, true), FieldNames(s, t, v, true, 0));
      PopulateMeets(s, x, y, k, t, slot, v, UpdateAll, true, 0);
    }
  }

  lemma BoundsSame<T>(r: Res<T>, q: Res<T>, k: State)
    requires Bounds(r, k) && q.st.rows == r.st.rows && (q.Err? ==> r.Err?)
    ensures Bounds(q, k)
  {
    SameRowsUpto(q.st, r.st, k);
    if q.Err? {
      forall t ensures Count(k, t) <= Count(q.st, t) {
        assert Count(k, t) <= Count(r.st, t);
      }
      assert NoMoreRows(k, q.st);
    }
  }

  /** `create` succeeds if and only if the check accepts the value, with managed objects that
      exist at the end; and certainly if they exist at the start. */
  lemma CreateSucceeds(s: Schema, x: State, t: nat, v: Value, pol: Policy, cur: Option<nat>)
    requires Wf(s, x) && t < |s| && Fresh(s, t, v, true, RuleFor(pol))
    ensures var r := Create(s, x, t, v, pol, cur, true);
      && (r.Ok? <==> Accepts(s, x, r.st, t, v, pol == ForceCreate, Reused(pol, cur), true))
      && (Accepts(s, x, x, t, v, pol == ForceCreate, Reused(pol, cur), true) ==> r.Ok?)
  {
    var r := Create(s, x, t, v, pol, cur, true);
    CreateOutcome(s, x, t, v, pol, cur);
    AcceptsIff(s, x, r.st, t, v, pol == ForceCreate, Reused(pol, cur), true);
    if Accepts(s, x, x, t, v, pol == ForceCreate, Reused(pol, cur), true) {
      CreateFrame(s, x, t, v, pol, cur, true);
      assert NoMoreRows(x, r.st);
      AcceptsMore(s, x, x, r.st, t, v, pol == ForceCreate, Reused(pol, cur), true);
    }
  }

  lemma {:induction false} FirstComplaint(s: Schema, x: State, k: State, t: nat, v: Value, force: bool, created: bool, top: bool, i: nat, c: nat)
    requires t < |s| && i <= c < |s[t].props|
    requires forall d :: i <= d < c ==> FieldAccepted(s, x, k, t, v, force, created, top, d)
    requires FieldComplaint(s, x, k, t, v, force, created, top, c).Some?
    ensures FieldsComplaint(s, x, k, t, v, force, created, top, i) == FieldComplaint(s, x, k, t, v, force, created, top, c)
    decreases c - i
  {
    if i < c {
      FieldIff(s, x, k, t, v, force, created, top, i);
      FirstComplaint(s, x, k, t, v, force, created, top, i + 1, c);
    }
  }

  /** The first property that cannot be set decides the exception; one that is required and
      missing is reported by its name. */
  lemma MissingIsReported(s: Schema, x: State, t: nat, v: Value, pol: Policy, cur: Option<nat>, c: nat)
    requires Wf(s, x) && t < |s| && v.Unmanaged? && Fresh(s, t, v, true, RuleFor(pol)) && c < |s[t].props|
    requires KeyFits(s, t, v) && (s[t].pk.Some? && pol == ForceCreate ==> IsNew(s, x, t, v, None))
    requires s[t].pk.None? && Reused(pol, cur).Some? ==> Reused(pol, cur).value < Count(x, t)
    requires var created, force := IsNew(s, x, t, v, Reused(pol, cur)), pol == ForceCreate;
      var r := Create(s, x, t, v, pol, cur, true);
      && Lacks(s, t, v, created, true, c)
      && forall d :: 0 <= d < c ==> FieldAccepted(s, x, r.st, t, v, force, created, true, d)
    ensures Create(s, x, t, v, pol, cur, true).Outcome() == Bad(MissingPropertyValue(t, c))
  {
    CreateOutcome(s, x, t, v, pol, cur);
    FirstComplaint(s, x, Create(s, x, t, v, pol, cur, true).st, t, v, pol == ForceCreate, IsNew(s, x, t, v, Reused(pol, cur)), true, 0, c);
  }
}
