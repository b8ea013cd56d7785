// Creating and updating objects (object_accessor.hpp, list.hpp) as functions on states.
// Every function returns the state it reaches, also when it raises an exception.
module Engine {
  import opened Options
  import opened PropertyTypes
  import opened Store

  datatype Policy = ForceCreate | UpdateAll | UpdateModified

  datatype Error =
    | MissingPropertyValue(t: nat, c: nat)
    | NullKey(t: nat)
    | DuplicateKey(t: nat, key: Cell)
    | ModifyPrimaryKey(t: nat)
    | ReadOnlyProperty(t: nat, c: nat)
    | InvalidProperty(t: nat)
    | TypeMismatch
    | NullNotAllowed
    | InvalidRow
    | OutOfBounds

  datatype Outcome<+T> = Good(val: T) | Bad(error: Error)

  datatype Res<+T> = Ok(st: State, val: T) | Err(st: State, error: Error) {
    function Outcome(): Outcome<T> {
      if Ok? then Good(val) else Bad(error)
    }
  }

  // ----- unboxing

  predicate HasType(p: Prim, b: BaseType) {
    match p
    case IntV(_) => b == Int
    case BoolV(_) => b == Bool
    case StringV(_) => b == String
    case DataV(_) => b == Data
    case DateV(_, _) => b == Date
    case FloatV(_) => b == Float
    case DoubleV(_) => b == Double
  }

  function UnboxScalar(ty: PropertyType, v: Value): Outcome<Cell> {
    if v.Null? then (if ty.nullable then Good(CNull) else Bad(TypeMismatch))
    else if v.Scalar? && HasType(v.prim, ty.base) then Good(CPrim(v.prim))
    else Bad(TypeMismatch)
  }

  function LinkedRow(x: Cell): Option<nat> {
    if x.CLink? then Some(x.row) else None
  }

  // ----- finding or adding the row

  /** The key that `create` looks up: the supplied value, else the default, else null.
      Rows of a type without a key all count as having the key null. */
  function KeyOf(s: Schema, t: nat, v: Value): Outcome<Cell>
    requires t < |s|
  {
    if s[t].pk.None? then Good(CNull)
    else
      var c := s[t].pk.value;
      var p := s[t].props[c];
      var f := if FieldOf(v, c).Given? then FieldOf(v, c) else p.dflt;
      if f.Absent? && !p.ty.nullable then Bad(MissingPropertyValue(t, c))
      else
        var w := if f.Given? then f.value else Null;
        if w.Null? && !p.ty.nullable then Bad(NullKey(t)) else UnboxScalar(p.ty, w)
  }

  datatype Slot = Slot(row: nat, created: bool)

  /** The first half of `create`: look the row up, and add it if need be. */
  function Locate(s: Schema, st: State, t: nat, v: Value, pol: Policy, cur: Option<nat>): Res<Slot>
    requires t < |s|
  {
    var init := InitialRow(s[t].props);
    if s[t].pk.Some? then
      match KeyOf(s, t, v)
      case Bad(e) => Err(st, e)
      case Good(key) =>
        match Find(s, st, t, key)
        case None => Ok(AddRow(st, t, init[s[t].pk.value := key]), Slot(Count(st, t), true))
        case Some(r) => if pol == ForceCreate then Err(st, DuplicateKey(t, key)) else Ok(st, Slot(r, false))
    else if pol == UpdateModified && cur.Some? then
      if cur.value < Count(st, t) then Ok(st, Slot(cur.value, false)) else Err(st, InvalidRow)
    else
      Ok(AddRow(st, t, init), Slot(Count(st, t), true))
  }

  // ----- create

  /** The value that property `i` of a created row takes: the supplied one, else the
      default. `top` is false inside a default value, whose objects are complete. */
  function Supplied(s: Schema, t: nat, v: Value, i: nat, top: bool): Field
    requires t < |s| && i < |s[t].props|
  {
    if FieldOf(v, i).Given? then FieldOf(v, i) else if top then s[t].props[i].dflt else Absent
  }

  predicate SubTop(v: Value, i: nat, top: bool) {
    top && FieldOf(v, i).Given?
  }

  function Create(s: Schema, st: State, t: nat, v: Value, pol: Policy, cur: Option<nat>, top: bool): Res<nat>
    requires t < |s|
    decreases top, v, 5, 0
  {
    if !v.Unmanaged? then Err(st, TypeMismatch)
    else match Locate(s, st, t, v, pol, cur)
      case Err(st1, e) => Err(st1, e)
      case Ok(st1, slot) => Populate(s, st1, t, slot, v, pol, top, 0)
  }

  /** The property loop of `create`, from property `i` on. */
  function Populate(s: Schema, st: State, t: nat, slot: Slot, v: Value, pol: Policy, top: bool, i: nat): Res<nat>
    requires t < |s| && i <= |s[t].props|
    decreases top, v, 4, |s[t].props| - i
  {
    if i == |s[t].props| then Ok(st, slot.row)
    else match PopulateOne(s, st, t, slot, v, pol, top, i)
      case Err(st1, e) => Err(st1, e)
      case Ok(st1, _) => Populate(s, st1, t, slot, v, pol, top, i + 1)
  }

  function PopulateOne(s: Schema, st: State, t: nat, slot: Slot, v: Value, pol: Policy, top: bool, i: nat): Res<nat>
    requires t < |s| && i < |s[t].props|
    decreases top, v, 3, 0
  {
    var p := s[t].props[i];
    var f := Supplied(s, t, v, i, top);
    if s[t].pk == Some(i) || (FieldOf(v, i).Absent? && !slot.created) then Ok(st, slot.row)
    else if (f.Absent? || f.value.Null?) && !p.ty.nullable && !p.ty.list && !(v.Unmanaged? && v.isArray) then
      Err(st, MissingPropertyValue(t, i))
    else if f.Absent? then Ok(st, slot.row)
    else SetProp(s, st, t, slot.row, i, f.value, pol, FieldOf(v, i).Absent?, SubTop(v, i, top))
  }

  /** `set_property_value_impl`. */
  function SetProp(s: Schema, st: State, t: nat, row: nat, c: nat, v: Value,
                   pol: Policy, isDefault: bool, top: bool): Res<nat>
    requires t < |s| && c < |s[t].props|
    decreases top, v, 9, 0
  {
    var p := s[t].props[c];
    var a := Addr(t, row, c);
    if p.ty.nullable && v.Null? then SetNull(st, a, p.ty, pol, isDefault)
    else if p.ty.list then
      if p.ty.base == LinkingObjects then Err(st, ReadOnlyProperty(t, c)) else Assign(s, st, a, p, v, pol, top)
    else Update(s, st, a, p, v, pol, top)
  }

  /** The null branch; a null default leaves a link column alone. */
  function SetNull(st: State, a: Addr, ty: PropertyType, pol: Policy, isDefault: bool): Res<nat> {
    if ty.list then Err(st, NullNotAllowed)
    else if (pol != UpdateModified || Get(st, a) != CNull) && !(ty.base == Object && isDefault) then
      Ok(Do(st, a, SetTo(CNull)), a.r)
    else Ok(st, a.r)
  }

  /** `ValueUpdater`: the old content is read before a nested object is created. */
  function Update(s: Schema, st: State, a: Addr, p: Property, v: Value, pol: Policy, top: bool): Res<nat>
    requires ValidProperty(|s|, p)
    decreases top, v, 8, 0
  {
    var prev := Get(st, a);
    match UnboxItem(s, st, p, v, pol, LinkedRow(prev), top)
    case Err(st1, e) => Err(st1, e)
    case Ok(st1, x) => Ok(WriteBack(st1, a, prev, x, pol), a.r)
  }

  function WriteBack(st: State, a: Addr, prev: Cell, x: Cell, pol: Policy): State {
    if pol != UpdateModified || Differs(prev, x) then Do(st, a, SetTo(x)) else st
  }

  /** The context's `unbox`: scalars are converted, managed objects give their row, and
      anything else is created in turn with the same policy. */
  function UnboxItem(s: Schema, st: State, p: Property, v: Value, pol: Policy, cur: Option<nat>, top: bool): Res<Cell>
    requires ValidProperty(|s|, p)
    decreases top, v, 6, 0
  {
    if p.ty.base != Object then
      match UnboxScalar(p.ty, v)
      case Good(x) => Ok(st, x)
      case Bad(e) => Err(st, e)
    else if v.Managed? then
      if v.table != p.target then Err(st, TypeMismatch)
      else if v.row >= Count(st, p.target) then Err(st, InvalidRow)
      else Ok(st, CLink(v.row))
    else match Create(s, st, p.target, v, pol, cur, top)
      case Err(st1, e) => Err(st1, e)
      case Ok(st1, r) => Ok(st1, CLink(r))
  }

  // ----- lists

  /** `List::assign`. */
  function Assign(s: Schema, st: State, a: Addr, p: Property, v: Value, pol: Policy, top: bool): Res<nat>
    requires ValidProperty(|s|, p)
    decreases top, v, 8, 0
  {
    if v.SameList? then Ok(st, a.r)
    else if v.Null? then Ok(Do(st, a, ClearItems), a.r)
    else if !v.Values? then Err(st, TypeMismatch)
    else if pol == UpdateModified then AssignInPlace(s, st, a, p, v, 0, |Items(st, a)|, top)
    else Refill(s, Do(st, a, ClearItems), a, p, v, pol, 0, top)
  }

  /** Append the elements from `i` on. */
  function Refill(s: Schema, st: State, a: Addr, p: Property, v: Value, pol: Policy, i: nat, top: bool): Res<nat>
    requires ValidProperty(|s|, p) && v.Values? && i <= |v.elems|
    decreases top, v, 7, |v.elems| - i
  {
    if i == |v.elems| then Ok(st, a.r)
    else match UnboxItem(s, st, p, v.elems[i], pol, Some(0), top)
      case Err(st1, e) => Err(st1, e)
      case Ok(st1, x) => Refill(s, Do(st1, a, AddItem(x)), a, p, v, pol, i + 1, top)
  }

  /** Overwrite the first `sz` positions where they differ, append the rest, and trim. */
  function AssignInPlace(s: Schema, st: State, a: Addr, p: Property, v: Value, i: nat, sz: nat, top: bool): Res<nat>
    requires ValidProperty(|s|, p) && v.Values? && i <= |v.elems|
    decreases top, v, 7, |v.elems| - i
  {
    if i == |v.elems| then Trim(st, a, i, sz)
    else match Place(s, st, a, p, v.elems[i], i, sz, top)
      case Err(st1, e) => Err(st1, e)
      case Ok(st1, _) => AssignInPlace(s, st1, a, p, v, i + 1, sz, top)
  }

  /** The in-place treatment of element `i`. */
  function Place(s: Schema, st: State, a: Addr, p: Property, e: Value, i: nat, sz: nat, top: bool): Res<nat>
    requires ValidProperty(|s|, p)
    decreases top, e, 8, 0
  {
    if i < sz then SetIfDifferent(s, st, a, p, e, i, top) else Append(s, st, a, p, e, top)
  }

  /** `List::set_if_different` under `UpdateModified`. */
  function SetIfDifferent(s: Schema, st: State, a: Addr, p: Property, e: Value, i: nat, top: bool): Res<nat>
    requires ValidProperty(|s|, p)
    decreases top, e, 7, 0
  {
    if i >= |Items(st, a)| then Err(st, OutOfBounds)
    else
      var prev := Items(st, a)[i];
      match UnboxItem(s, st, p, e, UpdateModified, LinkedRow(prev), top)
      case Err(st1, err) => Err(st1, err)
      case Ok(st1, x) => PutIfDifferent(st1, a, i, prev, x)
  }

  function PutIfDifferent(st: State, a: Addr, i: nat, prev: Cell, x: Cell): Res<nat> {
    if !Differs(prev, x) then Ok(st, a.r)
    else if i >= |Items(st, a)| then Err(st, OutOfBounds)
    else Ok(Do(st, a, PutItem(i, x)), a.r)
  }

  /** `List::add` under `UpdateModified`; the context's default for the current row is 0. */
  function Append(s: Schema, st: State, a: Addr, p: Property, e: Value, top: bool): Res<nat>
    requires ValidProperty(|s|, p)
    decreases top, e, 7, 0
  {
    match UnboxItem(s, st, p, e, UpdateModified, Some(0), top)
    case Err(st1, err) => Err(st1, err)
    case Ok(st1, x) => Ok(Do(st1, a, AddItem(x)), a.r)
  }

  /** The tail loop of `assign`: drop positions `sz - 1` down to `i`. */
  function Trim(st: State, a: Addr, i: nat, sz: nat): Res<nat>
    decreases sz
  {
    if i >= sz then Ok(st, a.r)
    else if sz - 1 >= |Items(st, a)| then Err(st, OutOfBounds)
    else Trim(Do(st, a, DropItem(sz - 1)), a, i, sz - 1)
  }
}
