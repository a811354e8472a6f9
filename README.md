# ColData and mysql_type_info of MySQL++, in Dafny

This project models two pieces of MySQL++.

- `mysql_type_info`, the type handle (module `TypeInfo`, file `type_info.dfy`). A
  handle is a small code `num` that indexes a fixed table of 62 SQL type
  descriptors. The table is laid out in four blocks at fixed offsets. Handles
  are equal, and ordered, by their codes. A handle built from a field record
  decodes the record's `UNSIGNED_FLAG` and `NOT_NULL_FLAG` bits into the
  unsigned and nullable variants of the field's type.
- `ColData`, the holder of one column value (module `ColumnData`, file
  `coldata.dfy`). A `ColData` either has no buffer (it is *valueless*) or refers
  to a heap `Buffer`. Several `ColData` objects can refer to the same buffer.
  A buffer holds a copy of the column's bytes followed by a `'\0'`
  terminator, the length, a type handle, a null flag and a reference count.

Both are mutable C++ objects, so both `Buffer` and `ColData` are Dafny classes,
and `MysqlTypeInfo` is one too. A `ColData` refers to its buffer by reference,
so two `ColData` objects can share one `Buffer`. Marking one of them null then
shows through the other, as it does in the C++ code.
`ColData.Value()` gives the abstract value: `Valueless`, or `Held(bytes,
typeNum, isNull)`. Every accessor is specified against it.
`Compare` is an index loop with an early return. Its loop invariant keeps the
bytes before `i` equal; at each exit a lemma turns that into `CompareBytes`, a
recursive reference definition of the raw byte comparison.
The lemmas about `CompareBytes` give the first-difference and common-prefix
characterisations, reflexivity, antisymmetry, and "zero exactly when equal".

Parts of the type system are defined outside `type_info.h`: the contents of the
descriptor table, the mapping `type()` from a MySQL type enum to a row, and
`quote_q`/`escape_q` on handles. These come in as a `Catalog` value:
`types: seq<SqlTypeInfo>` must have 62 rows, `typeIndex` (the header documents
`type()` as returning an index into the table) must return a row index, every
row's base type must be a row index, and `quoteQ` and `escapeQ` are functions.
The flag masks of the C API come in as a `FlagMasks` value: two non-zero masks with no bit in common. A 32-bit flag word is modelled
exactly as the set of positions of its 1 bits. So `x & m != 0` is written
`x * m != {}`, `x | m` is `x + m`, and `x & ~m` is `x - m`.

C `char` is modelled as signed (`-128..127`), as on the usual x86 and x86-64
ABIs. `compare` subtracts two such values after promotion to `int`.

The two `ColData` constructors, the default one and `FromBytes`, stand in for
the constructors declared in `lib/coldata.h`. That file is not part of this
model. They only make values to reason about: `()` gives a valueless
`ColData`, and `FromBytes` gives one over a freshly built `Buffer`.

Two facts about the code are worth stating:

- The four blocks are not the same size: by the offsets in `type_info.h` they
  hold 21, 10, 21 and 10 rows.
- Marking a `ColData` null changes the shared buffer whenever one exists,
  whatever its length or how it was created.

## Model

| member | source | states |
|---|---|---|
| `TypeInfo.BlockOf` | lib/type_info.h:120-125 | a code below 62 lies in exactly one of the four blocks, between that block's start and end offsets; a code of 62 or more lies in none |
| `TypeInfo.BlockLayout` | lib/type_info.h:120-148 | the offsets increase 0 < 21 < 31 < 52 < 62, the blocks tile the table without gaps, and `string_type` (20) lies in the first, signed not-null block |
| `TypeInfo.UnsignedFlagDecoding` | lib/type_info.h:299-305 | setting `UNSIGNED_FLAG` makes a field unsigned and clearing it makes it signed; neither changes whether the field is nullable |
| `TypeInfo.NotNullFlagDecoding` | lib/type_info.h:299-305 | setting `NOT_NULL_FLAG` makes a field not nullable and clearing it makes it nullable; neither changes whether the field is unsigned |
| `TypeInfo.MysqlTypeInfo.FromField` | lib/type_info.h:299-305 | the handle's code is `type()` of the field's type, unsigned iff `UNSIGNED_FLAG` is set, nullable iff `NOT_NULL_FLAG` is clear, a row index of the table; `length` and `max_length` are copied unchanged |
| `TypeInfo.MysqlTypeInfo.FromNum` | lib/type_info.h:161-164 | the handle's code is the given byte |
| `TypeInfo.MysqlTypeInfo.FromEnum` | lib/type_info.h:293-297 | the handle's code is `type()` of the given enum and variant flags, a row index of the table |
| `TypeInfo.MysqlTypeInfo.Copy` | lib/type_info.h:170-173 | the copy has the source's code; the lengths are not copied |
| `TypeInfo.MysqlTypeInfo.AssignNum` | lib/type_info.h:180-184 | after assignment from a byte the code is that byte and the lengths are unchanged |
| `TypeInfo.MysqlTypeInfo.Assign` | lib/type_info.h:186-190 | after assignment from a handle the code is the source's code (self-assignment included) and the lengths are unchanged |
| `TypeInfo.MysqlTypeInfo.Id` | lib/type_info.h:229-232 | `id()` is the handle's code, a value in 0..255 |
| `TypeInfo.MysqlTypeInfo.Before` | lib/type_info.h:252-255 | `before(b)` holds exactly when this handle's `id()` is below `b`'s |
| `TypeInfo.MysqlTypeInfo.Deref` | lib/type_info.h:258-261 | for a code inside the 62-row table, the descriptor is the table's row at that code |
| `TypeInfo.MysqlTypeInfo.SqlName` | lib/type_info.h:268-271 | the SQL name is the name in the handle's descriptor row |
| `TypeInfo.MysqlTypeInfo.BaseType` | lib/type_info.h:288-291 | a new handle whose code is the base-type index of this handle's descriptor row, itself a row index of the table |
| `TypeInfo.FieldTypeName` | lib/type_info.h:268-305 | a handle built from a field record can be dereferenced: its SQL name and base type are those of the row `type()` selects for the field's type and flags, and the base type is again a row index |
| `TypeInfo.Equal` | lib/type_info.h:307-310 | two handles are equal exactly when their codes are equal |
| `TypeInfo.NotEqual` | lib/type_info.h:312-315 | `!=` is exactly the negation of `==` |
| `TypeInfo.BeforeIsStrictTotalOrder` | lib/type_info.h:252-255 | `before` is irreflexive, asymmetric, transitive and total up to handle equality, and equal handles are not ordered either way |
| `ColumnData.Buffer.constructor` | lib/coldata.cpp:158-176 | with a source pointer: a fresh array of `length + 1` bytes whose first `length` bytes equal the source and whose last is `'\0'`, and `length_ == length`; without one: no data and `length_ == 0`; the type's code is copied, the null flag is stored, and the reference count is 1 |
| `ColumnData.ColData.Length` | lib/coldata.cpp:125-129 | the number of bytes held; 0 when valueless |
| `ColumnData.ColData.Data` | lib/coldata.cpp:85-89 | null when valueless, and null only when the length is 0; otherwise the start of an array that holds the bytes followed by `'\0'` |
| `ColumnData.ColData.End` | lib/coldata.cpp:92-96 | null exactly when `data()` is null; otherwise the same array as `data()`, `length()` positions further on |
| `ColumnData.ColData.IsNull` | lib/coldata.cpp:106-110 | true exactly when a buffer exists and is marked null; false when valueless |
| `ColumnData.ColData.QuoteQ` | lib/coldata.cpp:132-136 | the buffer's type's `quote_q()`; false when valueless |
| `ColumnData.ColData.EscapeQ` | lib/coldata.cpp:99-103 | the buffer's type's `escape_q()`; false when valueless |
| `ColumnData.ColData.ToString` | lib/coldata.cpp:139-148 | exactly the bytes held, `length()` of them, without the terminator; empty when valueless |
| `ColumnData.ColData.Index` | lib/coldata.cpp:151-155 | 0 when valueless; otherwise byte `pos` of the value, and `'\0'` at `pos == length()` |
| `ColumnData.ColData.At` | lib/coldata.cpp:40-49 | an `out_of_range("ColData")` error exactly when `pos >= size()`; otherwise byte `pos` of the value |
| `ColumnData.ColData.Compare` | lib/coldata.cpp:52-82 | 0 for two valueless operands, -1 for valueless against buffered, 1 for buffered against valueless, and for two buffered operands the raw byte comparison `CompareBytes` of their bytes |
| `ColumnData.ColData.ItIsNull` | lib/coldata.cpp:113-122 | afterwards `is_null()` holds; an existing buffer stays in place with only its null flag changed (bytes, length, type and reference count untouched); with no buffer, a fresh buffer with no data, of type `string_type`, marked null, with reference count 1, is installed |
| `ColumnData.CompareBytesFirstDifference` | lib/coldata.cpp:57-64 | at the first position below both lengths where the bytes differ, the comparison is the difference of those two bytes |
| `ColumnData.CompareBytesCommonPrefix` | lib/coldata.cpp:59-66 | when the shorter byte sequence is a prefix of the longer, the comparison is the difference of the lengths |
| `ColumnData.CompareBytesReflexive` | lib/coldata.cpp:57-66 | a byte sequence compares equal (0) to itself |
| `ColumnData.CompareBytesAntisymmetric` | lib/coldata.cpp:57-66 | swapping the operands negates the comparison |
| `ColumnData.CompareBytesZeroIffEqual` | lib/coldata.cpp:57-66 | the comparison is 0 exactly when the two byte sequences are identical |
| `ColumnData.CompareValuesOrder` | lib/coldata.cpp:52-82 | on column values, `compare` is 0 on a value and itself and antisymmetric, and is 0 exactly when both are valueless or both hold the same bytes, whatever their types and null flags |
| `ColumnData.AccessorsAgree` | lib/coldata.cpp:40-155 | below `length()`, `at`, `operator[]` and `to_string` read the same byte |
| `ColumnData.ItIsNullAliasing` | lib/coldata.cpp:113-122 | marking one `ColData` null marks every other `ColData` that shares its buffer, with only the null flag changed; a `ColData` that does not share the marked buffer is untouched; a `ColData` already null stays null |
| `ColumnData.ConstructAndRead` | lib/coldata.cpp:158-176 | a value built from `length` source bytes reads back as exactly those bytes, with that length and null flag; `at(0)` succeeds iff the length is positive, and `at(length())` is out of range |

## Left out

- `std::type_info` identity is not modelled. This covers `name()`, `c_type()`, the constructor and assignment from a `std::type_info`, the reverse-lookup map ordered by `type_info::before`, and `==`/`!=` against a `std::type_info`. They depend on platform runtime type information.
- The body of `type()`, the 62 rows of the descriptor table, and `quote_q`/`escape_q` on handles are not modelled. They are defined outside `type_info.h`, so they are parameters (`Catalog`). `MysqlTypeInfo.QuoteQ` and `MysqlTypeInfo.EscapeQ` only apply the catalog's functions, so they carry no contract.
- That a nullable variant's `base_type()` is its not-null variant is not proved: it depends on the table rows, which are not modelled.
- The handle's `length()` and `max_length()` accessors are plain reads of the fields; the model reads the fields `length` and `maxLength` directly.
- The default constructor of `mysql_type_info` is left out, because it leaves `num` uninitialised. Every handle in the model is built with an explicit code.
- The layout of `MYSQL_FIELD` and the numeric values of the flag bits are not modelled. So the conversion of the record's `length` and `max_length` to `unsigned int` is not modelled either: `Field` already holds 32-bit values.
- The destructors (lib/coldata.cpp:34-37 and 179-182) are left out: `~ColData` only calls `dec_ref_count`, and `~Buffer` frees the array; memory is not modelled. `dec_ref_count` and the reference counting done by copying and assigning a `ColData` are defined in `lib/coldata.h`, which is not part of this model. Only the initial count of 1 is modelled.
- `new[]`/`delete[]` and `memcpy` are not modelled beyond their effect on the buffer's contents. The constructor copies with a loop.
- The reference count is not atomic, and nothing here is modelled for concurrent use. The code is single-threaded.
- `size()` is declared in `lib/coldata.h`, which is not part of this model; `At` takes it to be `length()`.
- `ColumnData.ColData.Compare` returns the mathematical difference of the lengths. `size_type` is declared in `lib/coldata.h`, which is not part of this model. So the unsigned wrap-around of `length() - other.length()` is not modelled, nor its conversion to `int`, which is implementation-defined when the difference does not fit; on the usual ABIs it keeps the low 32 bits, so once the lengths differ by 2^31 or more the result can have the wrong sign or be 0.
- `ColumnData.ColData.Index` requires a buffer to have data. A buffer installed by `it_is_null` has a null data pointer, so `operator[]` on such a `ColData` dereferences null in the source. The precondition excludes that case instead of giving it a value.
- `ColumnData.Buffer.constructor` takes `length` as an unbounded natural number, so the wrap-around of `length + 1` at the largest `size_type` is not modelled.
- Plain `char` may be unsigned on some platforms. Only the signed reading is modelled.
