/**
 * Type handles of MySQL++ (lib/type_info.h): a handle is a small code `num`
 * that indexes a fixed table of 62 SQL type descriptors.  The table is laid
 * out in four contiguous blocks (signed not-null, unsigned not-null, signed
 * nullable, unsigned nullable).
 *
 * What the header does not define (the contents of the descriptor table, the
 * mapping `type()` from a MySQL type enum to a row, and `quote_q`/`escape_q`
 * on handles) is supplied as a `Catalog` value; the flag bits of the MySQL C
 * API are supplied as a `FlagMasks` value.
 */
module TypeInfo {

  /** C++ `unsigned char`. */
  type Byte = x: int | 0 <= x < 0x100

  /** C++ `unsigned int` (32 bits). */
  type UInt32 = x: int | 0 <= x < 0x1_0000_0000

  /** A MySQL C API `enum_field_types` value. */
  type FieldType = nat

  /** Number of rows of the descriptor table (`types[62]`). */
  const NumTypes: Byte := 62

  /** Start of each block of the descriptor table. */
  const Offset: Byte := 0
  const UnsignedOffset: Byte := 21
  const NullOffset: Byte := 31
  const UnsignedNullOffset: Byte := 52

  /** The row used for plain character data (`string_type`). */
  const StringType: Byte := 20

  /** One row of the descriptor table (`mysql_ti_sql_type_info`); the C++
      runtime type of the row is not modelled. */
  datatype SqlTypeInfo = SqlTypeInfo(sqlName: string, baseType: Byte, isDefault: bool)

  /** The parts of the type system whose definitions lie outside the header. */
  datatype Catalog = Catalog(
    types: seq<SqlTypeInfo>,
    typeIndex: (FieldType, bool, bool) -> Byte,
    quoteQ: Byte -> bool,
    escapeQ: Byte -> bool)
  {
    /** The table has 62 rows, `type()` returns an index into it, and every
        row's base type is an index into it too. */
    ghost predicate Valid() {
      && |types| == NumTypes as int
      && (forall t, u, n :: typeIndex(t, u, n) < NumTypes)
      && (forall i | 0 <= i < |types| :: types[i].baseType < NumTypes)
    }
  }

  /** A bit position of a 32-bit word. */
  type BitIndex = k: int | 0 <= k < 32

  /** A 32-bit flag word, as the set of positions of its 1 bits: `x & y`
      is `x * y`, `x | y` is `x + y`, `x & ~y` is `x - y`, and `x & y != 0`
      is `x * y != {}`. */
  type Flags = set<BitIndex>

  /** `UNSIGNED_FLAG` and `NOT_NULL_FLAG` of the C API: two non-zero masks
      with no bit in common. */
  datatype FlagMasks = FlagMasks(unsignedFlag: Flags, notNullFlag: Flags)
  {
    ghost predicate Valid() {
      unsignedFlag != {} && notNullFlag != {} && unsignedFlag !! notNullFlag
    }
  }

  /** The part of a `MYSQL_FIELD` record that a handle is built from. */
  datatype Field = Field(fieldType: FieldType, flags: Flags, length: UInt32, maxLength: UInt32)

  /** `(f.flags & UNSIGNED_FLAG) != 0`: the field is of the unsigned variant of its type. */
  predicate IsUnsignedField(f: Field, m: FlagMasks) { f.flags * m.unsignedFlag != {} }

  /** `(f.flags & NOT_NULL_FLAG) == 0`: the field may hold SQL null. */
  predicate IsNullableField(f: Field, m: FlagMasks) { f.flags * m.notNullFlag == {} }

  /** The four blocks of the descriptor table, in table order. */
  datatype Block = SignedNotNull | UnsignedNotNull | SignedNullable | UnsignedNullable

  function BlockStart(b: Block): Byte
  {
    match b
    case SignedNotNull => Offset
    case UnsignedNotNull => UnsignedOffset
    case SignedNullable => NullOffset
    case UnsignedNullable => UnsignedNullOffset
  }

  function BlockEnd(b: Block): Byte
  {
    match b
    case SignedNotNull => UnsignedOffset
    case UnsignedNotNull => NullOffset
    case SignedNullable => UnsignedNullOffset
    case UnsignedNullable => NumTypes
  }

  datatype Option<T> = None | Some(value: T)

  /** The block a type code falls in; codes past the table have none. */
  function BlockOf(n: Byte): (r: Option<Block>)
    ensures r.Some? <==> n < NumTypes
    ensures r.Some? ==> BlockStart(r.value) <= n < BlockEnd(r.value)
    ensures forall b: Block :: BlockStart(b) <= n < BlockEnd(b) ==> r == Some(b)
  {
    if n < UnsignedOffset then Some(SignedNotNull)
    else if n < NullOffset then Some(UnsignedNotNull)
    else if n < UnsignedNullOffset then Some(SignedNullable)
    else if n < NumTypes then Some(UnsignedNullable)
    else None
  }

  /** The block offsets increase, the blocks tile the table, and
      `string_type` lies in the first (signed, not-null) block. */
  lemma BlockLayout()
    ensures Offset == 0 < UnsignedOffset < NullOffset < UnsignedNullOffset < NumTypes
    ensures forall b: Block :: BlockStart(b) < BlockEnd(b)
    ensures BlockEnd(SignedNotNull) == BlockStart(UnsignedNotNull)
    ensures BlockEnd(UnsignedNotNull) == BlockStart(SignedNullable)
    ensures BlockEnd(SignedNullable) == BlockStart(UnsignedNullable)
    ensures BlockOf(StringType) == Some(SignedNotNull)
  {
  }

  /** Setting `UNSIGNED_FLAG` selects the unsigned variant and clearing it
      the signed one; neither changes whether the field is nullable. */
  lemma UnsignedFlagDecoding(f: Field, m: FlagMasks)
    requires m.Valid()
    ensures IsUnsignedField(f.(flags := f.flags + m.unsignedFlag), m)
    ensures !IsUnsignedField(f.(flags := f.flags - m.unsignedFlag), m)
    ensures IsNullableField(f.(flags := f.flags + m.unsignedFlag), m) == IsNullableField(f, m)
    ensures IsNullableField(f.(flags := f.flags - m.unsignedFlag), m) == IsNullableField(f, m)
  {
  }

  /** Setting `NOT_NULL_FLAG` selects the not-null variant and clearing it
      the nullable one; neither changes whether the field is unsigned. */
  lemma NotNullFlagDecoding(f: Field, m: FlagMasks)
    requires m.Valid()
    ensures !IsNullableField(f.(flags := f.flags + m.notNullFlag), m)
    ensures IsNullableField(f.(flags := f.flags - m.notNullFlag), m)
    ensures IsUnsignedField(f.(flags := f.flags + m.notNullFlag), m) == IsUnsignedField(f, m)
    ensures IsUnsignedField(f.(flags := f.flags - m.notNullFlag), m) == IsUnsignedField(f, m)
  {
  }

  /** A type handle (`mysql_type_info`). */
  class MysqlTypeInfo {
    var length: UInt32
    var maxLength: UInt32
    var num: Byte

    /** `mysql_type_info(unsigned char n)`: sets the code only; the two
        length fields are left as they come. */
    constructor FromNum(n: Byte)
      ensures num == n
    {
      num := n;
    }

    /** `mysql_type_info(enum_field_types, bool, bool)`. */
    constructor FromEnum(c: Catalog, t: FieldType, isUnsigned: bool, isNullable: bool)
      requires c.Valid()
      ensures num == c.typeIndex(t, isUnsigned, isNullable)
      ensures num < NumTypes
    {
      num := c.typeIndex(t, isUnsigned, isNullable);
    }

    /** `mysql_type_info(const MYSQL_FIELD&)`: picks the unsigned variant iff
        `UNSIGNED_FLAG` is set and the nullable variant iff `NOT_NULL_FLAG`
        is clear, and keeps the field's lengths. */
    constructor FromField(c: Catalog, m: FlagMasks, f: Field)
      requires c.Valid()
      ensures num == c.typeIndex(f.fieldType, IsUnsignedField(f, m), IsNullableField(f, m))
      ensures num < NumTypes
      ensures length == f.length && maxLength == f.maxLength
    {
      num := c.typeIndex(f.fieldType, IsUnsignedField(f, m), IsNullableField(f, m));
      length := f.length;
      maxLength := f.maxLength;
    }

    /** The copy constructor: copies the code only, not the lengths. */
    constructor Copy(t: MysqlTypeInfo)
      ensures num == t.num
    {
      num := t.num;
    }

    /** `operator=(unsigned char)`. */
    method AssignNum(n: Byte)
      modifies this
      ensures num == n
      ensures length == old(length) && maxLength == old(maxLength)
    {
      num := n;
    }

    /** `operator=(const mysql_type_info&)`: copies the code only. */
    method Assign(t: MysqlTypeInfo)
      modifies this
      ensures num == old(t.num)
      ensures length == old(length) && maxLength == old(maxLength)
    {
      num := t.num;
    }

    /** `id()`: the handle's code. */
    function Id(): (r: int)
      reads this
      ensures 0 <= r < 0x100
      ensures r == num as int
    {
      num as int
    }

    /** `before(b)`: orders handles by code. */
    predicate Before(b: MysqlTypeInfo)
      reads this, b
      ensures Before(b) <==> Id() < b.Id()
    {
      num < b.num
    }

    /** `deref()`: the handle's row of the descriptor table. */
    function Deref(c: Catalog): (r: SqlTypeInfo)
      reads this
      requires c.Valid() && num < NumTypes
      ensures r in c.types
      ensures r == c.types[num]
    {
      c.types[num]
    }

    /** `sql_name()`. */
    function SqlName(c: Catalog): (r: string)
      reads this
      requires c.Valid() && num < NumTypes
      ensures r == Deref(c).sqlName
    {
      Deref(c).sqlName
    }

    /** `quote_q()`, whose definition is part of the catalog. */
    predicate QuoteQ(c: Catalog)
      reads this
    {
      c.quoteQ(num)
    }

    /** `escape_q()`, whose definition is part of the catalog. */
    predicate EscapeQ(c: Catalog)
      reads this
    {
      c.escapeQ(num)
    }

    /** `base_type()`: a new handle for the row's base type. */
    method BaseType(c: Catalog) returns (r: MysqlTypeInfo)
      requires c.Valid() && num < NumTypes
      ensures fresh(r)
      ensures r.num == Deref(c).baseType
      ensures r.num < NumTypes
    {
      r := new MysqlTypeInfo.FromNum(Deref(c).baseType);
    }
  }

  /** A handle built from a field record can be dereferenced: its SQL name
      and base type are those of the table row that `type()` picks. */
  method FieldTypeName(c: Catalog, m: FlagMasks, f: Field) returns (name: string, base: Byte)
    requires c.Valid()
    ensures var row := c.types[c.typeIndex(f.fieldType, IsUnsignedField(f, m), IsNullableField(f, m))];
      name == row.sqlName && base == row.baseType && base < NumTypes
  {
    var h := new MysqlTypeInfo.FromField(c, m, f);
    name := h.SqlName(c);
    var b := h.BaseType(c);
    base := b.num;
  }

  /** `operator==` on handles. */
  predicate Equal(a: MysqlTypeInfo, b: MysqlTypeInfo)
    reads a, b
    ensures Equal(a, b) <==> a.num == b.num
  {
    a.Id() == b.Id()
  }

  /** `operator!=` on handles. */
  predicate NotEqual(a: MysqlTypeInfo, b: MysqlTypeInfo)
    reads a, b
    ensures NotEqual(a, b) <==> !Equal(a, b)
  {
    a.Id() != b.Id()
  }

  /** `before` is a strict total order on handles, with `==` as its equivalence. */
  lemma BeforeIsStrictTotalOrder(a: MysqlTypeInfo, b: MysqlTypeInfo, c: MysqlTypeInfo)
    ensures !a.Before(a)
    ensures a.Before(b) ==> !b.Before(a)
    ensures a.Before(b) && b.Before(c) ==> a.Before(c)
    ensures a.Before(b) || b.Before(a) || Equal(a, b)
    ensures Equal(a, b) ==> !a.Before(b) && !b.Before(a)
  {
  }
}
