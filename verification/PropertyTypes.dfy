// Property types and the byte in which the object store packs them
// (property.hpp): the low bits hold the base type, two high bits hold flags.
module PropertyTypes {

  datatype BaseType =
    | Int | Bool | String | Data | Date | Float | Double
    | Object | LinkingObjects | Any

  /** A property type with its flags taken apart. */
  datatype PropertyType = PropertyType(base: BaseType, nullable: bool, list: bool)

  const NULLABLE: bv8 := 64
  const ARRAY: bv8 := 128
  const FLAGS: bv8 := 192

  function BaseCode(b: BaseType): bv8 {
    match b
    case Int => 0
    case Bool => 1
    case String => 2
    case Data => 3
    case Date => 4
    case Float => 5
    case Double => 6
    case Object => 7
    case LinkingObjects => 8
    case Any => 9
  }

  function BaseOfCode(c: bv8): BaseType {
    if c == 0 then Int else if c == 1 then Bool else if c == 2 then String
    else if c == 3 then Data else if c == 4 then Date else if c == 5 then Float
    else if c == 6 then Double else if c == 7 then Object
    else if c == 8 then LinkingObjects else Any
  }

  /** The byte stored for a property type. */
  function Pack(p: PropertyType): bv8 {
    BaseCode(p.base) | (if p.nullable then NULLABLE else 0) | (if p.list then ARRAY else 0)
  }

  predicate IsArray(c: bv8) { c & ARRAY == ARRAY }

  predicate IsNullable(c: bv8) { c & NULLABLE == NULLABLE }

  /** The overloaded `==`, which compares base types and ignores the flags. */
  predicate SameBase(c: bv8, d: bv8) { c & !FLAGS == d & !FLAGS }

  /** What `switch_on_type` sees: the base type, and whether to use the optional form. */
  function Unpack(c: bv8): PropertyType {
    PropertyType(BaseOfCode(c & !FLAGS), IsNullable(c), IsArray(c))
  }

  /** The bytes that hold a property type. */
  predicate IsCode(c: bv8) { c & !FLAGS <= 9 }

  /** Packing loses nothing, and each flag test reads exactly its own flag. */
  lemma UnpackPack(p: PropertyType)
    ensures IsCode(Pack(p)) && Unpack(Pack(p)) == p
    ensures IsArray(Pack(p)) <==> p.list
    ensures IsNullable(Pack(p)) <==> p.nullable
  {
    match p.base
    case Int => case Bool => case String => case Data => case Date =>
    case Float => case Double => case Object => case LinkingObjects => case Any =>
  }

  /** Every valid byte is the code of the type it unpacks to. */
  lemma PackUnpack(c: bv8)
    requires IsCode(c)
    ensures Pack(Unpack(c)) == c
  {
    var b := c & !FLAGS;
    assert b <= 9;
    assert BaseCode(BaseOfCode(b)) == b;
    assert c == b | (c & NULLABLE) | (c & ARRAY);
    assert c & NULLABLE == NULLABLE || c & NULLABLE == 0;
    assert c & ARRAY == ARRAY || c & ARRAY == 0;
  }

  /** The masked comparison holds exactly when the base types agree, whatever the flags. */
  lemma SameBaseMeansSameBase(p: PropertyType, q: PropertyType)
    ensures SameBase(Pack(p), Pack(q)) <==> p.base == q.base
  {
    UnpackPack(p);
    UnpackPack(q);
    if SameBase(Pack(p), Pack(q)) {
      assert Unpack(Pack(p)).base == Unpack(Pack(q)).base;
    }
  }
}
