/**
 * The column value of MySQL++ (lib/coldata.cpp).  A `ColData` either has no
 * buffer (it is "valueless", as after default construction) or refers to a
 * heap `Buffer` that several `ColData` objects may share.  A buffer's bytes,
 * length and type are fixed when it is built; only its null flag changes
 * afterwards, and that change is seen through every `ColData` that shares it.
 */
module ColumnData {
  import opened TypeInfo

  /** C `char`, signed as on the usual x86 and x86-64 ABIs. */
  type CChar = x: int | -128 <= x < 128

  /** The terminator written after the bytes of a buffer. */
  const NUL: CChar := 0

  /** `std::out_of_range`, with its message. */
  datatype Error = OutOfRange(what: string)

  datatype Result<T> = Ok(value: T) | Err(error: Error)

  /** A `const char*`: null, or a position within a character array. */
  datatype Ptr = Null | Into(arr: array<CChar>, offset: nat)

  /** What a `ColData` holds, without its representation. */
  datatype ColValue = Valueless | Held(bytes: seq<CChar>, typeNum: Byte, isNull: bool)

  /** `ColData::Buffer`: the shared storage of a column value. */
  class Buffer {
    const data: array?<CChar>
    const length: nat
    const typ: MysqlTypeInfo
    var isNull: bool
    var refs: nat

    /** A buffer without data has length 0; one with data holds `length`
        bytes followed by the terminator. */
    ghost predicate Valid()
      reads this, data
    {
      (data == null ==> length == 0) &&
      (data != null ==> data.Length == length + 1 && data[length] == NUL)
    }

    /** The buffer's bytes, without the terminator. */
    ghost function Bytes(): seq<CChar>
      reads this, data
      requires Valid()
    {
      if data == null then [] else data[..length]
    }

    /** The objects the buffer's value depends on. */
    ghost function Footprint(): set<object>
    {
      {this, typ} + (if data == null then {} else {data})
    }

    /** `Buffer(pd, length, type, is_null)`: with a source pointer, copies
        its first `length` bytes and appends the terminator; without one,
        stores no data and has length 0.  The type handle is copied and the
        reference count starts at 1. */
    constructor (pd: array?<CChar>, length: nat, t: MysqlTypeInfo, isNull: bool)
      requires pd != null ==> length <= pd.Length
      ensures Valid()
      ensures pd != null ==> data != null && fresh(data) && this.length == length && Bytes() == pd[..length]
      ensures pd == null ==> data == null && this.length == 0
      ensures fresh(typ) && typ.num == t.num
      ensures this.isNull == isNull && refs == 1
    {
      var copy: array?<CChar> := null;
      if pd != null {
        var a := new CChar[length + 1];
        var i := 0;
        while i < length
          invariant 0 <= i <= length
          invariant a[..i] == pd[..i]
        {
          a[i] := pd[i];
          i := i + 1;
        }
        a[length] := NUL;
        assert a[..length] == pd[..length];
        copy := a;
      }
      data := copy;
      this.length := if pd != null then length else 0;
      typ := new MysqlTypeInfo.Copy(t);
      this.isNull := isNull;
      refs := 1;
    }
  }

  /** `ColData`: a handle on a possibly shared buffer. */
  class ColData {
    var buffer: Buffer?

    ghost function Repr(): set<object>
      reads this
    {
      {this} + (if buffer == null then {} else buffer.Footprint())
    }

    ghost predicate Valid()
      reads Repr()
    {
      buffer != null ==> buffer.Valid()
    }

    ghost function Value(): ColValue
      reads Repr()
      requires Valid()
    {
      if buffer == null then Valueless else Held(buffer.Bytes(), buffer.typ.num, buffer.isNull)
    }

    /** Default construction: no buffer. */
    constructor ()
      ensures Valid() && buffer == null && Value() == Valueless
    {
      buffer := null;
    }

    /** Construction over a freshly built buffer. */
    constructor FromBytes(pd: array?<CChar>, length: nat, t: MysqlTypeInfo, isNull: bool)
      requires pd != null ==> length <= pd.Length
      ensures Valid() && buffer != null && fresh(buffer) && fresh(buffer.typ)
      ensures pd != null ==> fresh(buffer.data)
      ensures buffer.refs == 1
      ensures Value() == Held(if pd != null then pd[..length] else [], t.num, isNull)
    {
      buffer := new Buffer(pd, length, t, isNull);
    }

    /** `length()`: the number of bytes held, 0 when valueless. */
    function Length(): (r: nat)
      reads Repr()
      requires Valid()
      ensures Value().Valueless? ==> r == 0
      ensures Value().Held? ==> r == |Value().bytes|
    {
      if buffer == null then 0 else buffer.length
    }

    /** `data()`: null when valueless or when the buffer has no data;
        otherwise a terminated string of the bytes held. */
    function Data(): (p: Ptr)
      reads Repr()
      requires Valid()
      ensures Value().Valueless? ==> p == Null
      ensures p.Null? ==> Length() == 0
      ensures p.Into? ==> p.offset == 0 && p.arr.Length == Length() + 1
      ensures p.Into? ==> p.arr[..Length()] == Value().bytes && p.arr[Length()] == NUL
    {
      if buffer == null || buffer.data == null then Null else Into(buffer.data, 0)
    }

    /** `end()`: one past the last byte, so that `Data()`..`End()` spans
        exactly `Length()` bytes. */
    function End(): (p: Ptr)
      reads Repr()
      requires Valid()
      ensures Value().Valueless? ==> p == Null
      ensures p.Null? <==> Data().Null?
      ensures p.Into? ==> p.arr == Data().arr && p.offset == Data().offset + Length()
    {
      if buffer == null || buffer.data == null then Null else Into(buffer.data, buffer.length)
    }

    /** `is_null()`: true only once marked null; false when valueless. */
    predicate IsNull()
      reads Repr()
      requires Valid()
      ensures IsNull() <==> Value().Held? && Value().isNull
    {
      buffer != null && buffer.isNull
    }

    /** `quote_q()`: whether the value's type needs quoting; false when valueless. */
    predicate QuoteQ(c: Catalog)
      reads Repr()
      requires Valid()
      ensures QuoteQ(c) <==> Value().Held? && c.quoteQ(Value().typeNum)
    {
      buffer != null && buffer.typ.QuoteQ(c)
    }

    /** `escape_q()`: whether the value's type needs escaping; false when valueless. */
    predicate EscapeQ(c: Catalog)
      reads Repr()
      requires Valid()
      ensures EscapeQ(c) <==> Value().Held? && c.escapeQ(Value().typeNum)
    {
      buffer != null && buffer.typ.EscapeQ(c)
    }

    /** `to_string(s)`: the bytes held, without the terminator; empty when valueless. */
    function ToString(): (s: seq<CChar>)
      reads Repr()
      requires Valid()
      ensures |s| == Length()
      ensures Value().Held? ==> s == Value().bytes
      ensures Value().Valueless? ==> s == []
    {
      if buffer == null || buffer.data == null then [] else buffer.data[..buffer.length]
    }

    /** `operator[](pos)`: unchecked; 0 when valueless.  With a buffer the
        position must lie within the terminated string, which must exist. */
    function Index(pos: nat): (r: CChar)
      reads Repr()
      requires Valid()
      requires buffer != null ==> buffer.data != null && pos <= buffer.length
      ensures Value().Valueless? ==> r == 0
      ensures Value().Held? && pos < Length() ==> r == Value().bytes[pos]
      ensures Value().Held? && pos == Length() ==> r == NUL
    {
      if buffer == null then 0 else buffer.data[pos]
    }

    /** `at(pos)`: checked against `size()`, which is `length()`; out of
        range exactly when `pos >= size()`. */
    function At(pos: nat): (r: Result<CChar>)
      reads Repr()
      requires Valid()
      ensures r.Err? <==> pos >= Length()
      ensures r.Err? ==> r.error == OutOfRange("ColData")
      ensures r.Ok? ==> r.value == Value().bytes[pos]
    {
      if pos >= Length() then Err(OutOfRange("ColData")) else Ok(buffer.data[pos])
    }

    /** `compare(other)`: raw byte comparison, with valueless values below
        every value that has a buffer. */
    method Compare(other: ColData) returns (r: int)
      requires Valid() && other.Valid()
      ensures r == CompareValues(Value(), other.Value())
      ensures buffer == null && other.buffer == null ==> r == 0
      ensures buffer == null && other.buffer != null ==> r == -1
      ensures buffer != null && other.buffer == null ==> r == 1
      ensures buffer != null && other.buffer != null ==> r == CompareBytes(Value().bytes, other.Value().bytes)
    {
      if buffer != null {
        if other.buffer != null {
          var ptb, pob := buffer.data, other.buffer.data;
          var shortLen := if Length() <= other.Length() then Length() else other.Length();
          ghost var a, b := Value().bytes, other.Value().bytes;
          var i := 0;
          while i < shortLen
            invariant 0 <= i <= shortLen
            invariant a[..i] == b[..i]
          {
            if ptb[i] != pob[i] {
              r := ptb[i] as int - pob[i] as int;
              CompareBytesFirstDifference(a, b, i);
              return;
            }
            assert a[..i + 1] == a[..i] + [a[i]];
            assert b[..i + 1] == b[..i] + [b[i]];
            i := i + 1;
          }
          r := Length() - other.Length();
          CompareBytesCommonPrefix(a, b);
        } else {
          r := 1;
        }
      } else if other.buffer != null {
        r := -1;
      } else {
        r := 0;
      }
    }

    /** `it_is_null()`: marks the shared buffer null, or installs a fresh
        empty buffer of type `string_type` that carries the null flag. */
    method ItIsNull()
      requires Valid()
      modifies this, buffer
      ensures Valid() && IsNull()
      ensures old(buffer) != null ==> buffer == old(buffer) && buffer.refs == old(buffer.refs)
      ensures old(buffer) != null ==> old(Value()).Held? && Value() == old(Value()).(isNull := true)
      ensures old(buffer) == null ==> fresh(buffer) && fresh(buffer.typ) && buffer.data == null && buffer.refs == 1
      ensures old(buffer) == null ==> Value() == Held([], StringType, true)
    {
      if buffer != null {
        buffer.isNull := true;
      } else {
        var t := new MysqlTypeInfo.FromNum(StringType);
        buffer := new Buffer(null, 0, t, true);
      }
    }
  }

  /** Raw byte comparison: the difference of the first differing bytes,
      or else the difference of the lengths. */
  function CompareBytes(a: seq<CChar>, b: seq<CChar>): int
    decreases |a|
  {
    if a == [] || b == [] then |a| - |b|
    else if a[0] != b[0] then a[0] as int - b[0] as int
    else CompareBytes(a[1..], b[1..])
  }

  /** `compare` on abstract values. */
  function CompareValues(x: ColValue, y: ColValue): int
  {
    match (x, y)
    case (Valueless, Valueless) => 0
    case (Valueless, Held(_, _, _)) => -1
    case (Held(_, _, _), Valueless) => 1
    case (Held(a, _, _), Held(b, _, _)) => CompareBytes(a, b)
  }

  /** At the first position below both lengths where the bytes differ,
      the comparison is their difference. */
  lemma {:induction false} CompareBytesFirstDifference(a: seq<CChar>, b: seq<CChar>, i: nat)
    requires i < |a| && i < |b|
    requires a[..i] == b[..i] && a[i] != b[i]
    ensures CompareBytes(a, b) == a[i] as int - b[i] as int
  {
    if i > 0 {
      assert a[0] == a[..i][0] == b[..i][0] == b[0];
      assert a[1..][..i - 1] == a[..i][1..] == b[..i][1..] == b[1..][..i - 1];
      CompareBytesFirstDifference(a[1..], b[1..], i - 1);
    }
  }

  /** When the shorter sequence is a prefix of the longer, the comparison
      is the difference of the lengths. */
  lemma {:induction false} CompareBytesCommonPrefix(a: seq<CChar>, b: seq<CChar>)
    requires var m := if |a| <= |b| then |a| else |b|; a[..m] == b[..m]
    ensures CompareBytes(a, b) == |a| - |b|
  {
    if a != [] && b != [] {
      var m := if |a| <= |b| then |a| else |b|;
      assert a[0] == a[..m][0] == b[..m][0] == b[0];
      assert a[1..][..m - 1] == a[..m][1..] == b[..m][1..] == b[1..][..m - 1];
      CompareBytesCommonPrefix(a[1..], b[1..]);
    }
  }

  /** A byte sequence compares equal to itself. */
  lemma {:induction false} CompareBytesReflexive(a: seq<CChar>)
    ensures CompareBytes(a, a) == 0
  {
    if a != [] {
      CompareBytesReflexive(a[1..]);
    }
  }

  /** Swapping the operands negates the comparison. */
  lemma {:induction false} CompareBytesAntisymmetric(a: seq<CChar>, b: seq<CChar>)
    ensures CompareBytes(a, b) == -CompareBytes(b, a)
  {
    if a != [] && b != [] && a[0] == b[0] {
      CompareBytesAntisymmetric(a[1..], b[1..]);
    }
  }

  /** The comparison is zero exactly for identical byte sequences. */
  lemma {:induction false} CompareBytesZeroIffEqual(a: seq<CChar>, b: seq<CChar>)
    ensures CompareBytes(a, b) == 0 <==> a == b
  {
    if a == b {
      CompareBytesReflexive(a);
    } else if a != [] && b != [] && a[0] == b[0] {
      CompareBytesZeroIffEqual(a[1..], b[1..]);
      assert a == [a[0]] + a[1..] && b == [b[0]] + b[1..];
    }
  }

  /** `compare` is antisymmetric, zero on a value and itself, and zero
      exactly when both are valueless or both hold the same bytes (types
      and null flags play no part). */
  lemma CompareValuesOrder(x: ColValue, y: ColValue)
    ensures CompareValues(x, x) == 0
    ensures CompareValues(x, y) == -CompareValues(y, x)
    ensures CompareValues(x, y) == 0 <==>
      (x.Valueless? && y.Valueless?) || (x.Held? && y.Held? && x.bytes == y.bytes)
  {
    if x.Held? {
      CompareBytesReflexive(x.bytes);
    }
    if x.Held? && y.Held? {
      CompareBytesAntisymmetric(x.bytes, y.bytes);
      CompareBytesZeroIffEqual(x.bytes, y.bytes);
    }
  }

  /** `to_string`, `operator[]` and `at` read the same bytes. */
  lemma AccessorsAgree(cd: ColData, pos: nat)
    requires cd.Valid() && pos < cd.Length()
    ensures cd.At(pos) == Ok(cd.ToString()[pos])
    ensures cd.Index(pos) == cd.ToString()[pos]
  {
  }

  /** Marking one `ColData` null marks every `ColData` sharing its buffer,
      and only the null flag changes; a `ColData` that does not share the
      marked buffer is unaffected.  Null-ness is never undone. */
  method ItIsNullAliasing(a: ColData, b: ColData)
    requires a.Valid() && b.Valid() && a != b
    modifies a, a.buffer
    ensures a.Valid() && a.IsNull()
    ensures old(a.buffer) != null && b.buffer == old(a.buffer) ==>
      b.Valid() && b.IsNull() && old(b.Value()).Held? && b.Value() == old(b.Value()).(isNull := true)
    ensures old(a.buffer) == null ==> b.Valid() && b.Value() == old(b.Value())
    ensures old(a.buffer) != null && b.buffer != old(a.buffer) ==> b.Valid() && b.Value() == old(b.Value())
    ensures b.Valid() && (old(b.IsNull()) ==> b.IsNull())
  {
    a.ItIsNull();
  }

  /** A value built from `length` source bytes reads back as exactly those
      bytes, with that length and the given null flag. */
  method ConstructAndRead(pd: array<CChar>, length: nat, t: MysqlTypeInfo, isNull: bool)
    returns (s: seq<CChar>, n: nat, markedNull: bool, first: Result<CChar>, past: Result<CChar>)
    requires length <= pd.Length
    ensures s == pd[..length] && n == length && markedNull == isNull
    ensures first == if length > 0 then Ok(pd[0]) else Err(OutOfRange("ColData"))
    ensures past == Err(OutOfRange("ColData"))
  {
    var cd := new ColData.FromBytes(pd, length, t, isNull);
    s := cd.ToString();
    n := cd.Length();
    markedNull := cd.IsNull();
    first := cd.At(0);
    past := cd.At(length);
  }
}
