// The database that the object store works on: tables of rows of cells, the
// schema, the values handed in by a binding, and the primitive writes.
module Store {
  import opened Options
  import opened PropertyTypes

  // ----- stored values

  /** A floating point number; the two zeros are identified. */
  datatype Number = NaN | Num(value: real)

  datatype Prim =
    | IntV(i: int)
    | BoolV(b: bool)
    | StringV(str: string)
    | DataV(bytes: seq<bv8>)
    | DateV(seconds: int, nanoseconds: int)
    | FloatV(float: Number)
    | DoubleV(double: Number)

  /** The content of one column of one row, or of one list position. */
  datatype Cell =
    | CNull
    | CPrim(prim: Prim)
    | CLink(row: nat)
    | CList(items: seq<Cell>)

  predicate IsNaN(x: Cell) {
    x.CPrim? && ((x.prim.FloatV? && x.prim.float.NaN?) || (x.prim.DoubleV? && x.prim.double.NaN?))
  }

  /** The `!=` that guards a write: NaN differs from everything, itself included. */
  predicate Differs(prev: Cell, next: Cell) {
    prev != next || IsNaN(next)
  }

  // ----- values supplied by a binding

  /** What a binding passes in: a finite tree. `Managed` is an object that is already in
      the database, `Unmanaged` one that is described property by property (`isArray`
      when it was given as an array), and `SameList` the very list it is assigned to. */
  datatype Value =
    | Null
    | Scalar(prim: Prim)
    | Managed(table: nat, row: nat)
    | Unmanaged(fields: seq<Field>, isArray: bool)
    | Values(elems: seq<Value>)
    | SameList

  datatype Field = Absent | Given(value: Value)

  /** The context's `value_for_property`. */
  function FieldOf(v: Value, i: nat): Field {
    if v.Unmanaged? && i < |v.fields| then v.fields[i] else Absent
  }

  // ----- schema

  datatype Property = Property(name: string, ty: PropertyType, target: nat, dflt: Field)

  datatype ObjectSchema = ObjectSchema(name: string, props: seq<Property>, pk: Option<nat>)

  predicate ValidProperty(n: nat, p: Property) {
    && p.ty.base != Any
    && (p.ty.base == Object ==> p.target < n && p.ty.list != p.ty.nullable)
    && (p.ty.base == LinkingObjects ==> p.ty.list && !p.ty.nullable)
  }

  predicate ValidKey(o: ObjectSchema) {
    o.pk.Some? ==>
      && o.pk.value < |o.props|
      && !o.props[o.pk.value].ty.list
      && (o.props[o.pk.value].ty.base == Int || o.props[o.pk.value].ty.base == String)
  }

  predicate ValidSchema(s: seq<ObjectSchema>) {
    forall t :: 0 <= t < |s| ==>
      ValidKey(s[t]) && forall c :: 0 <= c < |s[t].props| ==> ValidProperty(|s|, s[t].props[c])
  }

  type Schema = s: seq<ObjectSchema> | ValidSchema(s) witness []

  /** The content of a column of a freshly added row. */
  function InitialCell(ty: PropertyType): Cell {
    if ty.list then CList([])
    else if ty.nullable then CNull
    else match ty.base
      case Int => CPrim(IntV(0))
      case Bool => CPrim(BoolV(false))
      case String => CPrim(StringV(""))
      case Data => CPrim(DataV([]))
      case Date => CPrim(DateV(0, 0))
      case Float => CPrim(FloatV(Num(0.0)))
      case Double => CPrim(DoubleV(Num(0.0)))
      case _ => CNull
  }

  function InitialRow(props: seq<Property>): (cells: seq<Cell>)
    ensures |cells| == |props|
    ensures forall c :: 0 <= c < |props| ==> cells[c] == InitialCell(props[c].ty)
  {
    seq(|props|, c requires 0 <= c < |props| => InitialCell(props[c].ty))
  }

  // ----- database

  datatype Addr = Addr(t: nat, r: nat, c: nat)

  datatype Edit =
    | SetTo(value: Cell)
    | PutItem(index: nat, item: Cell)
    | AddItem(item: Cell)
    | DropItem(index: nat)
    | ClearItems

  /** A primitive write. The log of a state lists every one that was issued. */
  datatype Op = NewRow(t: nat, init: seq<Cell>) | At(a: Addr, edit: Edit)

  /** `rows` counts the rows of each table, `cells` holds their contents. */
  datatype State = State(rows: map<nat, nat>, cells: map<Addr, Cell>, log: seq<Op>)

  function Count(st: State, t: nat): nat {
    if t in st.rows then st.rows[t] else 0
  }

  function Get(st: State, a: Addr): Cell {
    if a in st.cells then st.cells[a] else CNull
  }

  function ItemsOf(x: Cell): seq<Cell> {
    if x.CList? then x.items else []
  }

  function Items(st: State, a: Addr): seq<Cell> {
    ItemsOf(Get(st, a))
  }

  function Edited(x: Cell, e: Edit): Cell {
    match e
    case SetTo(y) => y
    case PutItem(i, y) => if i < |ItemsOf(x)| then CList(ItemsOf(x)[i := y]) else x
    case AddItem(y) => CList(ItemsOf(x) + [y])
    case DropItem(i) => if i < |ItemsOf(x)| then CList(ItemsOf(x)[..i] + ItemsOf(x)[i + 1..]) else x
    case ClearItems => CList([])
  }

  /** Perform one edit of one cell, and log it. */
  function Do(st: State, a: Addr, e: Edit): State {
    State(st.rows, st.cells[a := Edited(Get(st, a), e)], st.log + [At(a, e)])
  }

  /** Store the cells of row `r` of table `t`. */
  function Fill(cells: map<Addr, Cell>, t: nat, r: nat, init: seq<Cell>): (res: map<Addr, Cell>)
    ensures forall a {:trigger a in res} :: a in res <==> a in cells || (a.t == t && a.r == r && a.c < |init|)
    ensures forall a {:trigger res[a]} :: a in res ==>
      res[a] == if a.t == t && a.r == r && a.c < |init| then init[a.c] else cells[a]
  {
    if init == [] then cells
    else Fill(cells, t, r, init[..|init| - 1])[Addr(t, r, |init| - 1) := init[|init| - 1]]
  }

  /** Append a row to a table; existing row numbers keep their meaning. */
  function AddRow(st: State, t: nat, init: seq<Cell>): State {
    State(st.rows[t := Count(st, t) + 1], Fill(st.cells, t, Count(st, t), init), st.log + [NewRow(t, init)])
  }

  /** Exactly the cells of the rows that exist are stored, and list columns hold lists.
      (Large properties of states are sets of states here and below, so that proofs hand
      them on whole instead of part by part.) */
  ghost function WellFormed(s: Schema): iset<State> {
    iset st: State |
      && (forall a {:trigger a in st.cells} :: a in st.cells <==>
            a.t < |s| && a.r < Count(st, a.t) && a.c < |s[a.t].props|)
      && (forall a {:trigger st.cells[a]} :: a in st.cells && s[a.t].props[a.c].ty.list ==> st.cells[a].CList?)
  }

  ghost predicate Wf(s: Schema, st: State) {
    st in WellFormed(s)
  }

  /** Two states with the same contents; the logs may differ. */
  ghost predicate SameContent(x: State, y: State) {
    x.rows == y.rows && x.cells == y.cells
  }

  // ----- keys

  /** The key of a row of a keyed table. */
  function KeyAt(s: Schema, st: State, t: nat, r: nat): Cell
    requires t < |s|
  {
    if s[t].pk.Some? then Get(st, Addr(t, r, s[t].pk.value)) else CNull
  }

  /** The core's `find_first` on the key column, starting at row `from`. */
  function FindFrom(s: Schema, st: State, t: nat, key: Cell, from: nat): (res: Option<nat>)
    requires t < |s|
    ensures res.Some? ==>
      && from <= res.value < Count(st, t)
      && KeyAt(s, st, t, res.value) == key
      && forall r :: from <= r < res.value ==> KeyAt(s, st, t, r) != key
    ensures res.None? ==> forall r :: from <= r < Count(st, t) ==> KeyAt(s, st, t, r) != key
    decreases Count(st, t) - from
  {
    if from >= Count(st, t) then None
    else if KeyAt(s, st, t, from) == key then Some(from)
    else FindFrom(s, st, t, key, from + 1)
  }

  function Find(s: Schema, st: State, t: nat, key: Cell): Option<nat>
    requires t < |s|
  {
    FindFrom(s, st, t, key, 0)
  }

  /** No two rows of a keyed table have the same key; null counts as a key. */
  ghost predicate UniqueKeys(s: Schema, st: State) {
    forall t, r, r' :: 0 <= t < |s| && s[t].pk.Some? && 0 <= r < r' < Count(st, t) ==>
      KeyAt(s, st, t, r) != KeyAt(s, st, t, r')
  }
}
