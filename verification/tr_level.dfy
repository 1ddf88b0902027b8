/**
 * The reader of the original games' level files (TrLevel.LoadLevel): the
 * version word and its ".trc" fix-up, the header up to the level-data block,
 * and the parse of the level data itself: rooms (skipped), meshes with their
 * size accounting, the animation tables, moveables and static meshes, object
 * and sprite textures, the sections skipped by their counts, the sound map,
 * the sound details and the sample indices.
 *
 * A BinaryReader over a stream is a Reader: the stream's bytes and a
 * position. A field read past the end of the stream is an EndOfStream
 * failure which, like the exception, aborts the whole load; ReadBytes
 * instead returns whatever bytes are left, as BinaryReader.ReadBytes does.
 */
module TrLevelReader {
  import W = Wrappers
  import Text
  import TrCatalog
  import opened Bits

  /** The game versions the reader branches on; any other header word is OtherVersion. */
  datatype TrVersion = TR1 | TR2 | TR3 | TR4 | TR5 | OtherVersion

  /** The versions whose level data follows the uncompressed TR1-TR3 layout. */
  predicate IsClassic(v: TrVersion) { v == TR1 || v == TR2 || v == TR3 }

  /** The versions whose textured faces carry a LightingEffect field. */
  predicate HasFaceLighting(v: TrVersion) { v == TR4 || v == TR5 }

  /** The exceptions a load can end with. */
  datatype LoadError =
    | EndOfStream      // a field read past the end of the stream
    | NegativeCount    // ReadBytes with a negative count
    | SeekOutOfRange   // a seek past the largest stream position

  /** The largest position a memory stream can seek to (int.MaxValue). */
  const MaxPosition: nat := 0x7FFF_FFFF

  // ---------------------------------------------------------------------
  // Little-endian fields and record layouts
  // ---------------------------------------------------------------------

  /** The primitive reads of BinaryReader that the level reader uses. */
  datatype Field = Byte | UShort | Short | UInt | Int

  function Width(f: Field): nat {
    match f
    case Byte => 1
    case UShort => 2
    case Short => 2
    case UInt => 4
    case Int => 4
  }

  /** The values a field of each kind can hold. */
  predicate InRange(f: Field, x: int) {
    match f
    case Byte => 0 <= x < 0x100
    case UShort => 0 <= x < 0x1_0000
    case Short => -0x8000 <= x < 0x8000
    case UInt => 0 <= x < 0x1_0000_0000
    case Int => -0x8000_0000 <= x < 0x8000_0000
  }

  /** An unsigned 8-bit value, as the reader's byte arrays hold them. */
  newtype byte = x: int | 0 <= x < 0x100

  function U16At(data: seq<byte>, p: nat): (x: nat)
    requires p + 2 <= |data|
    ensures x < 0x1_0000
  {
    data[p] as nat + 0x100 * data[p + 1] as nat
  }

  function U32At(data: seq<byte>, p: nat): (x: nat)
    requires p + 4 <= |data|
    ensures x < 0x1_0000_0000
  {
    U16At(data, p) + 0x1_0000 * U16At(data, p + 2)
  }

  /** An unsigned value below m read as two's complement. */
  function Signed(u: nat, m: nat): int {
    if u >= m / 2 then u - m else u
  }

  /** The value of a field of kind f stored little-endian at p. */
  function FieldAt(data: seq<byte>, p: nat, f: Field): (x: int)
    requires p + Width(f) <= |data|
    ensures InRange(f, x)
  {
    match f
    case Byte => data[p] as int
    case UShort => U16At(data, p)
    case Short => Signed(U16At(data, p), 0x1_0000)
    case UInt => U32At(data, p)
    case Int => Signed(U32At(data, p), 0x1_0000_0000)
  }

  /** The number of bytes a record of the given field kinds occupies. */
  function Size(layout: seq<Field>): nat {
    if layout == [] then 0 else Width(layout[0]) + Size(layout[1..])
  }

  /** The record stored at p: its fields in order, each read at the end of the previous one. */
  function RecordAt(data: seq<byte>, p: nat, layout: seq<Field>): (r: seq<int>)
    requires p + Size(layout) <= |data|
    ensures |r| == |layout|
    ensures forall i :: 0 <= i < |layout| ==> InRange(layout[i], r[i])
    decreases |layout|
  {
    if layout == [] then []
    else [FieldAt(data, p, layout[0])] + RecordAt(data, p + Width(layout[0]), layout[1..])
  }

  lemma {:induction false} SizeAppend(a: seq<Field>, b: seq<Field>)
    ensures Size(a + b) == Size(a) + Size(b)
  {
    if a == [] {
      assert a + b == b;
    } else {
      assert (a + b)[1..] == a[1..] + b;
      SizeAppend(a[1..], b);
    }
  }

  function Repeat(f: Field, n: nat): (r: seq<Field>)
    ensures |r| == n
    ensures Size(r) == n * Width(f)
  {
    if n == 0 then [] else [f] + Repeat(f, n - 1)
  }

  /** Two layouts one after the other. */
  function Then(a: seq<Field>, b: seq<Field>): (r: seq<Field>)
    ensures r == a + b
    ensures Size(r) == Size(a) + Size(b)
  {
    SizeAppend(a, b);
    a + b
  }

  /** tr_vertex: three shorts. Mesh centres, vertices and normals are stored this way. */
  const VertexLayout: seq<Field> := Repeat(Short, 3)

  /** A light shade of a mesh without normals. */
  const ShadeLayout: seq<Field> := Repeat(Short, 1)

  /** A textured quad: four vertex indices, a texture and, for TR4/TR5, a lighting effect. */
  function TexturedQuadLayout(v: TrVersion): (l: seq<Field>)
    ensures Size(l) == if HasFaceLighting(v) then 12 else 10
  {
    Repeat(UShort, if HasFaceLighting(v) then 6 else 5)
  }

  /** A textured triangle: three vertex indices, a texture and, for TR4/TR5, a lighting effect. */
  function TexturedTriangleLayout(v: TrVersion): (l: seq<Field>)
    ensures Size(l) == if HasFaceLighting(v) then 10 else 8
  {
    Repeat(UShort, if HasFaceLighting(v) then 5 else 4)
  }

  /** A coloured quad (TR1-TR3): four vertex indices and a colour. */
  const ColouredQuadLayout: seq<Field> := Repeat(UShort, 5)

  /** A coloured triangle (TR1-TR3): three vertex indices and a colour. */
  const ColouredTriangleLayout: seq<Field> := Repeat(UShort, 4)

  /** The number of fields of an animation record: TR4/TR5 add two lateral speed words. */
  function AnimationFields(v: TrVersion): nat {
    if HasFaceLighting(v) then 16 else 14
  }

  const StateChangeFields: nat := 3
  const DispatchFields: nat := 4
  const StaticMeshFields: nat := 15
  const SpriteTextureFields: nat := 9
  const SpriteSequenceFields: nat := 3

  /**
   * tr_animation: frame offset, frame rate and size, state, speed and
   * acceleration (and, for TR4/TR5, their lateral counterparts), then frame
   * start and end, next animation and frame, state changes and commands.
   */
  function AnimationLayout(v: TrVersion): (l: seq<Field>)
    ensures Size(l) == if HasFaceLighting(v) then 40 else 32
    ensures |l| == AnimationFields(v)
  {
    Then(Then(Then(Then(Repeat(UInt, 1), Repeat(Byte, 2)), Repeat(UShort, 1)),
              Repeat(Int, if HasFaceLighting(v) then 4 else 2)),
         Repeat(UShort, 8))
  }

  /** tr_state_change: state, number of dispatches, first dispatch. */
  const StateChangeLayout: seq<Field> := Repeat(UShort, StateChangeFields)

  /** tr_anim_dispatch: low and high frame, next animation and frame. */
  const DispatchLayout: seq<Field> := Repeat(UShort, DispatchFields)

  /**
   * tr_moveable: object id, number of meshes, starting mesh, mesh tree, frame
   * offset, animation; TR5 records carry one more, unused, ushort.
   */
  function MoveableLayout(v: TrVersion): (l: seq<Field>)
    ensures Size(l) == if v == TR5 then 20 else 18
    ensures |l| == if v == TR5 then 7 else 6
  {
    Then(Then(Then(Repeat(UInt, 1), Repeat(UShort, 2)), Repeat(UInt, 2)),
         Repeat(UShort, if v == TR5 then 2 else 1))
  }

  /** The fields of a moveable the reader keeps: the TR5 padding is dropped. */
  const MoveableFields: nat := 6

  /** tr_staticmesh: object id, mesh, visibility and collision boxes (six shorts each), flags. */
  function StaticMeshLayout(): (l: seq<Field>)
    ensures Size(l) == 32 && |l| == StaticMeshFields
  {
    Then(Then(Repeat(UInt, 1), Repeat(UShort, 1)), Then(Repeat(Short, 12), Repeat(UShort, 1)))
  }

  /**
   * tr_object_texture as stored: attributes, tile and flags, (TR4/TR5) new
   * flags, then four vertices of four bytes. TR4/TR5 records are followed by
   * 16 or 18 bytes the reader skips.
   */
  function ObjectTextureLayout(v: TrVersion): (l: seq<Field>)
    ensures Size(l) == if HasFaceLighting(v) then 22 else 20
    ensures |l| == if HasFaceLighting(v) then 19 else 18
  {
    Then(Repeat(UShort, if HasFaceLighting(v) then 3 else 2), Repeat(Byte, 16))
  }

  /** The bytes skipped after each TR3+ object texture record. */
  function ObjectTextureTail(v: TrVersion): nat {
    if v == TR4 then 16 else if v == TR5 then 18 else 0
  }

  /** tr_sprite_texture: tile, x, y, width, height and the four sides. */
  function SpriteTextureLayout(): (l: seq<Field>)
    ensures Size(l) == 16 && |l| == SpriteTextureFields
  {
    Then(Then(Then(Repeat(UShort, 1), Repeat(Byte, 2)), Repeat(UShort, 2)), Repeat(Short, 4))
  }

  /** tr_sprite_sequence: object id, negative length, offset. */
  function SpriteSequenceLayout(): (l: seq<Field>)
    ensures Size(l) == 8 && |l| == SpriteSequenceFields
  {
    Then(Repeat(Int, 1), Repeat(Short, 2))
  }

  /**
   * tr_sound_details as stored: TR1/TR2 hold sample, volume, chance and
   * characteristics as 16-bit fields; later versions hold the sample, four
   * bytes (volume, range, chance, pitch) and the characteristics.
   */
  function SoundDetailsLayout(v: TrVersion): (l: seq<Field>)
    ensures Size(l) == 8
    ensures |l| == if v == TR1 || v == TR2 then 4 else 6
  {
    if v == TR1 || v == TR2 then Then(Repeat(Short, 1), Repeat(UShort, 3))
    else Then(Then(Repeat(Short, 1), Repeat(Byte, 4)), Repeat(UShort, 1))
  }

  /** tr_color and tr_color4, the palette entries. */
  const Colour3Layout: seq<Field> := Repeat(Byte, 3)
  const Colour4Layout: seq<Field> := Repeat(Byte, 4)

  /** The bytes of the TR2/TR3 palettes: 256 * 3 and 256 * 4. */
  const PalettesSize: nat := 1792

  // ---------------------------------------------------------------------
  // The reader
  // ---------------------------------------------------------------------

  /** (int)count * recordSize in C#: the count converted to int, then an int product; both wrap. */
  function SkipLength(count: nat, recordSize: nat): int {
    Int32(Int32(count) * recordSize)
  }

  /** Without wrap-around the skipped length is the plain product. */
  lemma SkipLengthPlain(count: nat, recordSize: nat)
    requires count * recordSize < 0x8000_0000
    ensures SkipLength(count, recordSize) == count * recordSize
  {
    if recordSize > 0 {
      MulMonotone(1, recordSize, count);
    }
  }

  /**
   * Large counts wrap: 2^28 cameras of 16 bytes skip nothing, and a count of
   * 0xFFFF_FFFF is -1 as an int, so the skip throws.
   */
  lemma SkipLengthWraps()
    ensures SkipLength(0x1000_0000, 16) == 0
    ensures SkipLength(0xFFFF_FFFF, 16) < 0
  {
  }

  /** Where ReadBytes(n) from p leaves the stream: n bytes on, or at its end when fewer are left. */
  function SkipEnd(data: seq<byte>, p: nat, n: nat): (e: nat)
    ensures p <= |data| ==> p <= e <= |data|
    ensures p + n <= |data| ==> e == p + n
  {
    if p + n <= |data| then p + n else |data|
  }

  /** What ReadBytes(n) returns at p: n bytes, or fewer when the stream ends first. */
  function Available(data: seq<byte>, p: nat, n: nat): (r: seq<byte>)
    ensures |r| <= n
    ensures p + n <= |data| ==> r == data[p..p + n]
    ensures p + |r| < |data| ==> |r| == n
    ensures p <= |data| ==> p + |r| <= |data|
  {
    if p >= |data| then [] else if p + n <= |data| then data[p..p + n] else data[p..]
  }

  /** From within the data, ReadBytes(n) leaves the stream at SkipEnd. */
  lemma AvailableEnd(data: seq<byte>, p: nat, n: nat)
    requires p <= |data|
    ensures p + |Available(data, p, n)| == SkipEnd(data, p, n)
  {
  }

  /** records is the table of records of the given layout stored one after the other from p. */
  ghost predicate RecordsAt(data: seq<byte>, p: nat, layout: seq<Field>, records: seq<seq<int>>) {
    forall k :: 0 <= k < |records| ==>
      p + Times(k, Size(layout)) + Size(layout) <= |data| &&
      records[k] == RecordAt(data, p + Times(k, Size(layout)), layout)
  }

  lemma RecordsAtAppend(data: seq<byte>, p: nat, layout: seq<Field>, records: seq<seq<int>>, x: seq<int>)
    requires RecordsAt(data, p, layout, records) && Arity(records, |layout|)
    requires p + Times(|records|, Size(layout)) + Size(layout) <= |data|
    requires x == RecordAt(data, p + Times(|records|, Size(layout)), layout)
    ensures RecordsAt(data, p, layout, records + [x]) && Arity(records + [x], |layout|)
  {
    var longer := records + [x];
    forall k | 0 <= k < |longer|
      ensures p + Times(k, Size(layout)) + Size(layout) <= |data|
      ensures longer[k] == RecordAt(data, p + Times(k, Size(layout)), layout) && |longer[k]| == |layout|
    {
      if k < |records| {
        assert longer[k] == records[k];
      } else {
        assert longer[k] == x;
      }
    }
  }

  /** values is the table of fields of kind f stored one after the other from p. */
  ghost predicate ValuesAt(data: seq<byte>, p: nat, f: Field, values: seq<int>) {
    forall k :: 0 <= k < |values| ==>
      p + Times(k, Width(f)) + Width(f) <= |data| &&
      values[k] == FieldAt(data, p + Times(k, Width(f)), f)
  }

  /** Every record has n fields. */
  predicate Arity(records: seq<seq<int>>, n: nat) {
    forall k :: 0 <= k < |records| ==> |records[k]| == n
  }

  /** Every value is one a field of kind f can hold. */
  predicate AllInRange(f: Field, values: seq<int>) {
    forall k :: 0 <= k < |values| ==> InRange(f, values[k])
  }

  /** The sound details from index from on have range 8 and pitch 0, as TR1/TR2 details get. */
  ghost predicate ClassicRangeFrom(ds: seq<SoundDetails>, from: nat) {
    forall k :: from <= k < |ds| ==> ds[k].range == 8 && ds[k].pitch == 0
  }

  lemma ClassicRangeAppend(ds: seq<SoundDetails>, more: seq<SoundDetails>)
    requires ClassicRangeFrom(more, 0)
    ensures ClassicRangeFrom(ds + more, |ds|)
  {
    forall k | |ds| <= k < |ds + more|
      ensures (ds + more)[k].range == 8 && (ds + more)[k].pitch == 0
    {
      assert (ds + more)[k] == more[k - |ds|];
    }
  }

  /** A BinaryReader over a byte stream. */
  class Reader {
    const data: seq<byte>
    var pos: nat

    constructor (data: seq<byte>)
      ensures this.data == data && pos == 0
    {
      this.data := data;
      pos := 0;
    }

    /** One primitive read. */
    method ReadField(f: Field) returns (r: W.Result<int, LoadError>)
      modifies this`pos
      ensures r.Success? <==> old(pos) + Width(f) <= |data|
      ensures r.Success? ==> r.value == FieldAt(data, old(pos), f) && pos == old(pos) + Width(f)
      ensures r.Failure? ==> r.error == EndOfStream && pos == old(pos)
    {
      if pos + Width(f) > |data| {
        return W.Failure(EndOfStream);
      }
      r := W.Success(FieldAt(data, pos, f));
      pos := pos + Width(f);
    }

    /** The fields of one record, read in order. */
    method ReadRecord(layout: seq<Field>) returns (r: W.Result<seq<int>, LoadError>)
      modifies this`pos
      ensures r.Success? <==> old(pos) + Size(layout) <= |data|
      ensures r.Success? ==> r.value == RecordAt(data, old(pos), layout) && pos == old(pos) + Size(layout)
      ensures r.Failure? ==> r.error == EndOfStream && pos == old(pos)
    {
      if pos + Size(layout) > |data| {
        return W.Failure(EndOfStream);
      }
      r := W.Success(RecordAt(data, pos, layout));
      pos := pos + Size(layout);
    }

    /**
     * count records one after the other (a for loop over a record read, or
     * ReadBlockArray): record k is the one at k times the record size.
     */
    method ReadRecords(count: nat, layout: seq<Field>) returns (r: W.Result<seq<seq<int>>, LoadError>)
      requires Size(layout) > 0
      modifies this`pos
      ensures r.Success? <==> count == 0 || old(pos) + count * Size(layout) <= |data|
      ensures r.Success? ==> |r.value| == count && pos == old(pos) + count * Size(layout)
      ensures r.Success? ==> RecordsAt(data, old(pos), layout, r.value) && Arity(r.value, |layout|)
      ensures r.Failure? ==> r.error == EndOfStream
      ensures old(pos) <= |data| ==> pos <= |data|
    {
      var start, size := pos, Size(layout);
      var records: seq<seq<int>> := [];
      for i := 0 to count
        invariant pos == start + Times(i, size)
        invariant |records| == i
        invariant i > 0 ==> start + Times(i, size) <= |data|
        invariant RecordsAt(data, start, layout, records) && Arity(records, |layout|)
      {
        var x := ReadRecord(layout);
        if x.Failure? {
          RecordDoesNotFit(start, i, count, size, |data|);
          return W.Failure(x.error);
        }
        var at := start + Times(i, size);
        assert x.value == RecordAt(data, at, layout) && at + size <= |data|;
        RecordsAtAppend(data, start, layout, records, x.value);
        records := records + [x.value];
        assert Times(i + 1, size) == Times(i, size) + size;
      }
      TimesIsProduct(count, size);
      r := W.Success(records);
    }

    /** An unsigned count field, then that many records. */
    method ReadCounted(countField: Field, layout: seq<Field>) returns (r: W.Result<seq<seq<int>>, LoadError>)
      requires countField == UShort || countField == UInt
      requires Size(layout) > 0
      modifies this`pos
      ensures r.Success? ==> old(pos) + Width(countField) <= |data| && |r.value| == FieldAt(data, old(pos), countField)
      ensures r.Success? ==> pos == old(pos) + Width(countField) + |r.value| * Size(layout)
      ensures r.Success? ==> RecordsAt(data, old(pos) + Width(countField), layout, r.value) && Arity(r.value, |layout|)
      ensures r.Failure? ==> r.error == EndOfStream
    {
      var count :- ReadField(countField);
      r := ReadRecords(count, layout);
    }

    /** The moveables table: a u32 count of moveable records, each cut to its first MoveableFields fields. */
    method ReadMoveables(v: TrVersion) returns (r: W.Result<seq<seq<int>>, LoadError>)
      modifies this`pos
      ensures r.Success? ==> old(pos) + 4 <= |data| && |r.value| == U32At(data, old(pos))
      ensures r.Success? ==> MoveablesAt(data, old(pos) + 4, MoveableLayout(v), r.value)
      ensures r.Success? ==> Arity(r.value, MoveableFields)
    {
      ghost var p := pos;
      var layout := MoveableLayout(v);
      assert |layout| >= MoveableFields && Width(UInt) == 4;
      var records :- ReadCounted(UInt, layout);
      assert FieldAt(data, p, UInt) == U32At(data, p);
      WithoutPaddingAt(data, p + 4, layout, records);
      r := W.Success(WithoutPadding(records));
    }

    /** Animations, state changes and anim dispatches: each a u32 count and its records. */
    method ReadAnimationTables(v: TrVersion) returns (r: W.Result<(seq<seq<int>>, seq<seq<int>>, seq<seq<int>>), LoadError>)
      modifies this`pos
      ensures r.Success? ==> AnimationTablesShaped(v, r.value.0, r.value.1, r.value.2)
    {
      var animationRecords :- ReadCounted(UInt, AnimationLayout(v));
      var stateChangeRecords :- ReadCounted(UInt, StateChangeLayout);
      var dispatchRecords :- ReadCounted(UInt, DispatchLayout);
      r := W.Success((animationRecords, stateChangeRecords, dispatchRecords));
    }

    /** The 8-bit palette (256 RGB triples), then the 16-bit one (256 RGBA quads), discarded. */
    method SkipPalettes() returns (r: W.Result<(), LoadError>)
      modifies this`pos
      ensures r.Success? <==> old(pos) + PalettesSize <= |data|
      ensures r.Success? ==> pos == old(pos) + PalettesSize
      ensures old(pos) <= |data| ==> pos <= |data|
    {
      var palette8 :- ReadRecords(256, Colour3Layout);
      var palette16 :- ReadRecords(256, Colour4Layout);
      r := W.Success(());
    }

    /** The sprite textures, then the sprite sequences: each a u32 count and its records. */
    method ReadSpriteTables() returns (r: W.Result<(seq<seq<int>>, seq<seq<int>>), LoadError>)
      modifies this`pos
      ensures r.Success? ==> old(pos) + 4 <= |data| && |r.value.0| == U32At(data, old(pos))
      ensures r.Success? ==> Arity(r.value.0, SpriteTextureFields) && Arity(r.value.1, SpriteSequenceFields)
    {
      var textures :- ReadCounted(UInt, SpriteTextureLayout());
      var sequences :- ReadCounted(UInt, SpriteSequenceLayout());
      r := W.Success((textures, sequences));
    }

    /** The moveables table, then a u32 count of static-mesh records. */
    method ReadModelTables(v: TrVersion) returns (r: W.Result<(seq<seq<int>>, seq<seq<int>>), LoadError>)
      modifies this`pos
      ensures r.Success? ==> old(pos) + 4 <= |data| && |r.value.0| == U32At(data, old(pos))
      ensures r.Success? ==> ModelsShaped(r.value.0, r.value.1)
    {
      var moveableTable :- ReadMoveables(v);
      var staticRecords :- ReadCounted(UInt, StaticMeshLayout());
      r := W.Success((moveableTable, staticRecords));
    }

    /** ReadBytes(n) with a count that cannot be negative, its result discarded. */
    method Skip(n: nat)
      modifies this`pos
      ensures pos == old(pos) + |Available(data, old(pos), n)|
    {
      var skipped := ReadBytes(n);
    }

    /** count values of one kind, one after the other. */
    method ReadFieldArray(count: nat, f: Field) returns (r: W.Result<seq<int>, LoadError>)
      modifies this`pos
      ensures r.Success? <==> count == 0 || old(pos) + count * Width(f) <= |data|
      ensures r.Success? ==> |r.value| == count && pos == old(pos) + count * Width(f)
      ensures r.Success? ==> ValuesAt(data, old(pos), f, r.value) && AllInRange(f, r.value)
      ensures r.Failure? ==> r.error == EndOfStream
    {
      var records :- ReadRecords(count, [f]);
      assert Size([f]) == Width(f);
      r := W.Success(Singles(records));
      forall k | 0 <= k < |records|
        ensures r.value[k] == FieldAt(data, old(pos) + Times(k, Width(f)), f)
      {
        assert records[k] == RecordAt(data, old(pos) + Times(k, Width(f)), [f]);
      }
      assert ValuesAt(data, old(pos), f, r.value);
    }

    /** A u32 count, then that many values of one kind (a table of single fields). */
    method ReadValues(f: Field) returns (r: W.Result<seq<int>, LoadError>)
      modifies this`pos
      ensures r.Success? ==> old(pos) + 4 <= |data| && |r.value| == U32At(data, old(pos))
      ensures r.Success? ==> pos == old(pos) + 4 + |r.value| * Width(f)
      ensures r.Success? ==> ValuesAt(data, old(pos) + 4, f, r.value) && AllInRange(f, r.value)
      ensures r.Failure? ==> r.error == EndOfStream
    {
      var count :- ReadField(UInt);
      r := ReadFieldArray(count, f);
    }

    /** BinaryReader.ReadBytes: a negative count throws; otherwise the bytes that are left, up to n. */
    method ReadBytes(n: int) returns (r: W.Result<seq<byte>, LoadError>)
      modifies this`pos
      ensures r.Failure? <==> n < 0
      ensures r.Failure? ==> r.error == NegativeCount && pos == old(pos)
      ensures r.Success? ==> r.value == Available(data, old(pos), n) && pos == old(pos) + |r.value|
      ensures r.Success? && old(pos) + n <= |data| ==> pos == old(pos) + n
    {
      if n < 0 {
        return W.Failure(NegativeCount);
      }
      r := W.Success(Available(data, pos, n));
      pos := pos + |r.value|;
    }

    /**
     * A u32 count, then ReadBytes((int)count * recordSize): the section is
     * skipped, and the count is returned.
     */
    method SkipCounted(recordSize: nat) returns (r: W.Result<nat, LoadError>)
      modifies this`pos
      ensures r.Success? <==> old(pos) + 4 <= |data| && SkipLength(U32At(data, old(pos)), recordSize) >= 0
      ensures r.Success? ==> r.value == U32At(data, old(pos))
      ensures r.Success? ==> pos == old(pos) + 4 + |Available(data, old(pos) + 4, SkipLength(r.value, recordSize))|
      ensures r.Success? && old(pos) + 4 + SkipLength(r.value, recordSize) <= |data| ==>
        pos == old(pos) + 4 + SkipLength(r.value, recordSize)
    {
      var count :- ReadField(UInt);
      var skipped :- ReadBytes(SkipLength(count, recordSize));
      return W.Success(count);
    }

    /** Seek(offset, SeekOrigin.Current) on a memory stream: past int.MaxValue it throws. */
    method Seek(offset: nat) returns (r: W.Result<(), LoadError>)
      modifies this`pos
      ensures r.Success? <==> old(pos) + offset <= MaxPosition
      ensures r.Success? ==> pos == old(pos) + offset
      ensures r.Failure? ==> r.error == SeekOutOfRange && pos == old(pos)
    {
      if pos + offset > MaxPosition {
        return W.Failure(SeekOutOfRange);
      }
      pos := pos + offset;
      r := W.Success(());
    }
  }

  /** The values of a table whose records have one field each. */
  function Singles(records: seq<seq<int>>): (r: seq<int>)
    requires forall k :: 0 <= k < |records| ==> |records[k]| == 1
    ensures |r| == |records| && forall k :: 0 <= k < |r| ==> r[k] == records[k][0]
  {
    seq(|records|, k requires 0 <= k < |records| => records[k][0])
  }

  /** Moveable records without the padding u16 that TR5 adds after each. */
  function WithoutPadding(records: seq<seq<int>>): (r: seq<seq<int>>)
    requires forall k :: 0 <= k < |records| ==> |records[k]| >= MoveableFields
    ensures |r| == |records| && forall k :: 0 <= k < |r| ==> r[k] == records[k][..MoveableFields]
  {
    seq(|records|, k requires 0 <= k < |records| => records[k][..MoveableFields])
  }

  /** ds are the sound details of a table of version-v records stored one after the other from p. */
  ghost predicate SoundDetailsAt(v: TrVersion, data: seq<byte>, p: nat, ds: seq<SoundDetails>) {
    exists records :: RecordsAt(data, p, SoundDetailsLayout(v), records) && Arity(records, |SoundDetailsLayout(v)|) &&
      ds == SoundDetailsOfAll(v, records)
  }

  /** The sound details a table of sound-details records describes. */
  function SoundDetailsOfAll(v: TrVersion, records: seq<seq<int>>): (r: seq<SoundDetails>)
    requires forall k :: 0 <= k < |records| ==> |records[k]| == |SoundDetailsLayout(v)|
    ensures |r| == |records| && forall k :: 0 <= k < |r| ==> r[k] == SoundDetailsOf(v, records[k])
  {
    seq(|records|, k requires 0 <= k < |records| => SoundDetailsOf(v, records[k]))
  }

  /** ms is the table of records of the given layout at p, each cut to its first MoveableFields fields. */
  ghost predicate MoveablesAt(data: seq<byte>, p: nat, layout: seq<Field>, ms: seq<seq<int>>)
    requires |layout| >= MoveableFields
  {
    forall k :: 0 <= k < |ms| ==>
      p + Times(k, Size(layout)) + Size(layout) <= |data| &&
      ms[k] == RecordAt(data, p + Times(k, Size(layout)), layout)[..MoveableFields]
  }

  lemma WithoutPaddingAt(data: seq<byte>, p: nat, layout: seq<Field>, records: seq<seq<int>>)
    requires |layout| >= MoveableFields
    requires RecordsAt(data, p, layout, records) && Arity(records, |layout|)
    ensures MoveablesAt(data, p, layout, WithoutPadding(records))
    ensures |WithoutPadding(records)| == |records| && Arity(WithoutPadding(records), MoveableFields)
  {
  }

  /** k records of the given size, counted out one record at a time: k * size. */
  function Times(k: nat, size: nat): nat {
    if k == 0 then 0 else Times(k - 1, size) + size
  }

  lemma {:induction false} TimesIsProduct(k: nat, size: nat)
    ensures Times(k, size) == k * size
  {
    if k > 0 {
      TimesIsProduct(k - 1, size);
      MulStep(k - 1, size);
    }
  }

  lemma ScaleBy(n: nat, size: nat, c: nat)
    requires size == c
    ensures n * size == c * n
  {
  }

  lemma MulNonNegative(a: nat, b: nat)
    ensures a * b >= 0
  {
  }

  lemma MulStep(i: nat, c: nat)
    ensures (i + 1) * c == i * c + c
  {
  }

  /** When record i of count does not fit, the whole table does not fit either. */
  lemma RecordDoesNotFit(start: nat, i: nat, count: nat, size: nat, length: nat)
    requires i < count && start + Times(i, size) + size > length
    ensures count != 0 && start + count * size > length
  {
    TimesIsProduct(i + 1, size);
    MulMonotone(i + 1, count, size);
  }

  lemma MulMonotone(a: nat, b: nat, c: nat)
    requires a <= b
    ensures a * c <= b * c
  {
  }

  // ---------------------------------------------------------------------
  // Meshes
  // ---------------------------------------------------------------------

  /**
   * tr_mesh. The arrays hold the records as read (see the layouts above);
   * a mesh has normals or shades, never both. meshSize and meshPointer are
   * the reader's own accounting.
   */
  datatype Mesh = Mesh(
    center: seq<int>, radius: int,
    vertices: seq<seq<int>>, normals: seq<seq<int>>, shades: seq<seq<int>>,
    texturedQuads: seq<seq<int>>, texturedTriangles: seq<seq<int>>,
    colouredQuads: seq<seq<int>>, colouredTriangles: seq<seq<int>>,
    meshSize: int, meshPointer: int)

  /**
   * The shape the reader gives a mesh of version v: normals or shades but not
   * both, a lighting effect on textured faces exactly for TR4/TR5, coloured
   * faces only for TR1-TR3.
   */
  ghost predicate WellShaped(v: TrVersion, m: Mesh) {
    |m.center| == 3 &&
    (m.normals == [] || m.shades == []) &&
    Arity(m.texturedQuads, if HasFaceLighting(v) then 6 else 5) &&
    Arity(m.texturedTriangles, if HasFaceLighting(v) then 5 else 4) &&
    (!IsClassic(v) ==> m.colouredQuads == [] && m.colouredTriangles == [])
  }

  /** The bytes taken by a mesh's textured quads and triangles, their counts excluded. */
  function TexturedFacesSize(v: TrVersion, quads: nat, triangles: nat): nat {
    if HasFaceLighting(v) then 12 * quads + 10 * triangles else 10 * quads + 8 * triangles
  }

  /** The bytes the reader consumes for a mesh, before any padding. */
  function ConsumedSize(v: TrVersion, m: Mesh): nat {
    var faces := TexturedFacesSize(v, |m.texturedQuads|, |m.texturedTriangles|);
    var coloured :=
      if IsClassic(v) then 2 + 10 * |m.colouredQuads| + 2 + 8 * |m.colouredTriangles| else 0;
    10 + 2 + 6 * |m.vertices| + 2 + 6 * |m.normals| + 2 * |m.shades| + 2 + 2 + faces + coloured
  }

  /** The size the reader records as MeshSize: numBytes summed from the counts. */
  function NumBytes(v: TrVersion, m: Mesh): int {
    10 + 2 + 6 * |m.vertices|
    + (if |m.normals| > 0 then 2 + 6 * |m.normals| else 2 + 2 * |m.shades|)
    + FaceBytes(v, m)
  }

  /** The faces' share of numBytes: TR1-TR3 faces as 10 and 8 bytes, any other version's as 12 and 10. */
  function FaceBytes(v: TrVersion, m: Mesh): int {
    if IsClassic(v) then
      (2 + |m.texturedQuads| * 10) + (2 + |m.texturedTriangles| * 8)
      + (2 + |m.colouredQuads| * 10) + (2 + |m.colouredTriangles| * 8)
    else (2 + |m.texturedQuads| * 12) + (2 + |m.texturedTriangles| * 10)
  }

  /** For the five known versions MeshSize is exactly the number of bytes the mesh occupies. */
  lemma MeshSizeIsConsumed(v: TrVersion, m: Mesh)
    requires v != OtherVersion && WellShaped(v, m)
    ensures NumBytes(v, m) == ConsumedSize(v, m)
  {
  }

  /**
   * For any other version word the faces are read as TR1-TR3 faces but
   * counted as TR4/TR5 ones, so MeshSize exceeds the bytes read by two per
   * textured face.
   */
  lemma MeshSizeOtherVersion(m: Mesh)
    requires WellShaped(OtherVersion, m)
    ensures NumBytes(OtherVersion, m) == ConsumedSize(OtherVersion, m) + 2 * |m.texturedQuads| + 2 * |m.texturedTriangles|
  {
  }

  /** The bytes a mesh advances totalBytes by: its length padded to a multiple of four. */
  function PaddedSize(v: TrVersion, m: Mesh): (p: nat)
    ensures p % 4 == 0
    ensures ConsumedSize(v, m) <= p <= ConsumedSize(v, m) + 2
    ensures p >= 20
  {
    var c := ConsumedSize(v, m);
    ConsumedSizeIsEven(v, m);
    PadToFour(c);
    if c % 4 != 0 then c + 2 else c
  }

  /** Every field of a mesh is two or four bytes long. */
  lemma ConsumedSizeIsEven(v: TrVersion, m: Mesh)
    ensures ConsumedSize(v, m) % 2 == 0
  {
    var faces :=
      if HasFaceLighting(v) then 6 * |m.texturedQuads| + 5 * |m.texturedTriangles|
      else 5 * |m.texturedQuads| + 4 * |m.texturedTriangles|;
    var coloured :=
      if IsClassic(v) then 2 + 5 * |m.colouredQuads| + 4 * |m.colouredTriangles| else 0;
    var half := 9 + 3 * |m.vertices| + 3 * |m.normals| + |m.shades| + faces + coloured;
    assert ConsumedSize(v, m) == 2 * half;
  }

  lemma PadToFour(c: nat)
    requires c % 2 == 0
    ensures (if c % 4 != 0 then c + 2 else c) % 4 == 0
  {
  }

  /** totalBytes after a run of meshes. */
  function TotalSize(v: TrVersion, ms: seq<Mesh>): (t: nat)
    ensures t % 4 == 0
    ensures t >= 20 * |ms|
  {
    if ms == [] then 0
    else
      var before, last := TotalSize(v, ms[..|ms| - 1]), PaddedSize(v, ms[|ms| - 1]);
      AddMultiplesOfFour(before, last);
      before + last
  }

  lemma AddMultiplesOfFour(a: nat, b: nat)
    requires a % 4 == 0 && b % 4 == 0
    ensures (a + b) % 4 == 0
  {
  }

  /** Each mesh's MeshPointer is totalBytes before it: the padded sizes of the meshes in front. */
  ghost predicate PointersRunning(v: TrVersion, ms: seq<Mesh>) {
    forall k :: 0 <= k < |ms| ==> ms[k].meshPointer == TotalSize(v, ms[..k])
  }

  lemma RunningAppend(v: TrVersion, ms: seq<Mesh>, m: Mesh)
    requires PointersRunning(v, ms) && m.meshPointer == TotalSize(v, ms)
    ensures PointersRunning(v, ms + [m])
    ensures TotalSize(v, ms + [m]) == TotalSize(v, ms) + PaddedSize(v, m)
  {
    var t := ms + [m];
    assert t[..|ms|] == ms;
    forall k | 0 <= k < |ms|
      ensures t[k].meshPointer == TotalSize(v, t[..k])
    {
      assert t[..k] == ms[..k];
    }
  }

  /** The meshes a run ends with add their padded sizes to the total of its prefix. */
  lemma {:induction false} TotalSizePrefix(v: TrVersion, ms: seq<Mesh>, j: nat)
    requires j <= |ms|
    ensures TotalSize(v, ms[..j]) + 20 * (|ms| - j) <= TotalSize(v, ms)
    decreases |ms| - j
  {
    if j < |ms| {
      TotalSizePrefix(v, ms, j + 1);
      assert ms[..j + 1][..j] == ms[..j];
    } else {
      assert ms[..j] == ms;
    }
  }

  /**
   * Mesh pointers are multiples of four and strictly increasing, and each
   * mesh ends (padding included) at or before the next one starts.
   */
  lemma PointersOrdered(v: TrVersion, ms: seq<Mesh>, j: nat, k: nat)
    requires PointersRunning(v, ms) && j < k < |ms|
    ensures ms[j].meshPointer % 4 == 0
    ensures ms[j].meshPointer + PaddedSize(v, ms[j]) <= ms[k].meshPointer
  {
    assert ms[j].meshPointer == TotalSize(v, ms[..j]);
    assert ms[k].meshPointer == TotalSize(v, ms[..k]);
    PrefixGrows(v, ms, j, k);
  }

  /** A longer prefix of a mesh table is at least one padded mesh longer. */
  lemma PrefixGrows(v: TrVersion, ms: seq<Mesh>, j: nat, k: nat)
    requires j < k <= |ms|
    ensures TotalSize(v, ms[..j]) + PaddedSize(v, ms[j]) <= TotalSize(v, ms[..k])
  {
    var pre := ms[..k];
    TotalSizePrefix(v, pre, j + 1);
    assert pre[..j + 1] == ms[..j + 1];
    assert ms[..j + 1][..j] == ms[..j];
  }

  /**
   * What the mesh loop leaves: pointers running from 0, every mesh starting
   * below the loop bound, the last one reaching it, and each mesh's shape and
   * MeshSize as read.
   */
  ghost predicate MeshTable(v: TrVersion, ms: seq<Mesh>, bound: nat) {
    PointersRunning(v, ms) && TotalSize(v, ms) >= bound && MeshesRead(v, ms, bound)
  }

  /** Every mesh starts below the bound and has the shape and MeshSize the reader gives it. */
  ghost predicate MeshesRead(v: TrVersion, ms: seq<Mesh>, bound: nat) {
    forall k :: 0 <= k < |ms| ==>
      ms[k].meshPointer < bound && WellShaped(v, ms[k]) && ms[k].meshSize == NumBytes(v, ms[k])
  }

  lemma MeshesReadAppend(v: TrVersion, ms: seq<Mesh>, m: Mesh, bound: nat)
    requires MeshesRead(v, ms, bound)
    requires m.meshPointer < bound && WellShaped(v, m) && m.meshSize == NumBytes(v, m)
    ensures MeshesRead(v, ms + [m], bound)
  {
    forall k | 0 <= k < |ms| + 1
      ensures (ms + [m])[k] == if k < |ms| then ms[k] else m
    {
    }
  }

  /** Setting the pointer changes nothing else the reader accounts for. */
  lemma PointerKeepsShape(v: TrVersion, m: Mesh, p: int)
    ensures ConsumedSize(v, m.(meshPointer := p)) == ConsumedSize(v, m)
    ensures WellShaped(v, m) ==> WellShaped(v, m.(meshPointer := p))
    ensures NumBytes(v, m.(meshPointer := p)) == NumBytes(v, m)
  {
  }

  /** tr_object_texture: a TR1-TR3 record has no new flags, which stay 0. */
  datatype ObjectTexture = ObjectTexture(attributes: int, tileAndFlags: int, newFlags: int, vertices: seq<int>)

  /** The texture an object-texture record of version v describes. */
  function ObjectTextureOf(v: TrVersion, r: seq<int>): (t: ObjectTexture)
    requires |r| == |ObjectTextureLayout(v)|
    ensures |t.vertices| == 16
    ensures t.attributes == r[0] && t.tileAndFlags == r[1]
    ensures HasFaceLighting(v) ==> t.newFlags == r[2] && t.vertices == r[3..]
    ensures !HasFaceLighting(v) ==> t.newFlags == 0 && t.vertices == r[2..]
  {
    if HasFaceLighting(v) then ObjectTexture(r[0], r[1], r[2], r[3..])
    else ObjectTexture(r[0], r[1], 0, r[2..])
  }

  /** The textures from index from on have 16 vertex bytes, and new flags 0 unless v is TR4 or TR5. */
  ghost predicate TexturesFrom(v: TrVersion, ts: seq<ObjectTexture>, from: nat) {
    forall k :: from <= k < |ts| ==> |ts[k].vertices| == 16 && (!HasFaceLighting(v) ==> ts[k].newFlags == 0)
  }

  /** Every animation, state-change and dispatch record has the fields of its layout. */
  predicate AnimationTablesShaped(v: TrVersion, animations: seq<seq<int>>, stateChanges: seq<seq<int>>, dispatches: seq<seq<int>>) {
    Arity(animations, AnimationFields(v)) && Arity(stateChanges, StateChangeFields) && Arity(dispatches, DispatchFields)
  }

  /** Every moveable has the fields a moveable keeps and every static mesh those of its layout. */
  predicate ModelsShaped(moveables: seq<seq<int>>, staticMeshes: seq<seq<int>>) {
    Arity(moveables, MoveableFields) && Arity(staticMeshes, StaticMeshFields)
  }

  /** Anim commands fit a u16, mesh-tree words an i32 and frame words an i16. */
  predicate AnimationDataInRange(commands: seq<int>, trees: seq<int>, frames: seq<int>) {
    AllInRange(UShort, commands) && AllInRange(Int, trees) && AllInRange(Short, frames)
  }

  /** The level data from p holds a u16 room count, after the unused u32, of zero. */
  predicate Roomless(data: seq<byte>, p: nat) {
    p + 6 <= |data| && U16At(data, p + 4) == 0
  }

  /**
   * A compressed block at p: an uncompressed and a compressed size (u32
   * each) whose compressed size, as an int, is not negative.
   */
  predicate BlockFits(data: seq<byte>, p: nat) {
    p + 8 <= |data| && Int32(U32At(data, p + 4)) >= 0
  }

  /** The bytes ReadBytes returns for the block at p: its compressed size, or fewer at the end of the data. */
  function CompressedBlock(data: seq<byte>, p: nat): (r: seq<byte>)
    requires BlockFits(data, p)
    ensures |r| <= Int32(U32At(data, p + 4)) && p + 8 + |r| <= |data|
  {
    Available(data, p + 8, Int32(U32At(data, p + 4)))
  }

  /**
   * The count wave samples stored one after the other from p, each a u32
   * uncompressed size, a u32 compressed size and that many bytes (fewer at
   * the end of the data); none when a sample's header is cut off or its size
   * is negative as an int.
   */
  function SamplesFrom(data: seq<byte>, p: nat, count: nat): (r: W.Option<seq<seq<byte>>>)
    ensures r.Some? ==> |r.value| == count
    decreases count
  {
    if count == 0 then W.Some([])
    else if !BlockFits(data, p) then W.None
    else
      var block := CompressedBlock(data, p);
      var rest := SamplesFrom(data, p + 8 + |block|, count - 1);
      if rest.None? then W.None else W.Some([block] + rest.value)
  }

  /** Every sample has an 8-byte header, so count samples need at least 8 * count bytes. */
  lemma {:induction false} SamplesNeedHeaders(data: seq<byte>, p: nat, count: nat)
    requires SamplesFrom(data, p, count).Some?
    ensures count > 0 ==> p + 8 * count <= |data|
    decreases count
  {
    if count > 1 {
      SamplesNeedHeaders(data, p + 8 + |CompressedBlock(data, p)|, count - 1);
    }
  }

  /**
   * Loop state of the sample reader: all, the samples of the whole list, is
   * there exactly when the left samples from pos are, and before followed by
   * all is then now, the samples so far, followed by them.
   */
  ghost predicate SamplesPending(data: seq<byte>, pos: nat, left: nat, before: seq<seq<byte>>, now: seq<seq<byte>>, all: W.Option<seq<seq<byte>>>) {
    var rest := SamplesFrom(data, pos, left);
    (all.Some? <==> rest.Some?) && (all.Some? ==> before + all.value == now + rest.value)
  }

  /** Before any sample is read, the pending list is the whole list. */
  lemma SamplesPendingStart(data: seq<byte>, p: nat, count: nat, before: seq<seq<byte>>)
    ensures SamplesPending(data, p, count, before, before, SamplesFrom(data, p, count))
  {
  }

  /** Reading the block at p moves the pending state one sample on. */
  lemma SamplesPendingStep(data: seq<byte>, p: nat, left: nat, before: seq<seq<byte>>, now: seq<seq<byte>>, all: W.Option<seq<seq<byte>>>, block: seq<byte>, q: nat)
    requires left > 0 && SamplesPending(data, p, left, before, now, all)
    requires BlockFits(data, p) && block == CompressedBlock(data, p) && q == p + 8 + |block|
    ensures SamplesPending(data, q, left - 1, before, now + [block], all)
  {
    var rest := SamplesFrom(data, q, left - 1);
    if rest.Some? {
      assert now + ([block] + rest.value) == (now + [block]) + rest.value;
    }
  }

  /** A sample whose header is cut off or whose size is negative ends the list with nothing. */
  lemma SamplesPendingCut(data: seq<byte>, p: nat, left: nat, before: seq<seq<byte>>, now: seq<seq<byte>>, all: W.Option<seq<seq<byte>>>)
    requires left > 0 && !BlockFits(data, p) && SamplesPending(data, p, left, before, now, all)
    ensures all.None?
  {
  }

  /** With no sample left, the samples so far are before followed by the whole list. */
  lemma SamplesPendingDone(data: seq<byte>, p: nat, before: seq<seq<byte>>, now: seq<seq<byte>>, all: W.Option<seq<seq<byte>>>)
    requires SamplesPending(data, p, 0, before, now, all)
    ensures all.Some? && now == before + all.value
  {
    assert now + [] == now;
  }

  /** The samples after the level data were read in full from some position p of the file. */
  ghost predicate SamplesRead(data: seq<byte>, before: seq<seq<byte>>, after: seq<seq<byte>>) {
    before <= after &&
    exists p: nat :: p + 4 <= |data| && SamplesFrom(data, p + 4, U32At(data, p)) == W.Some(after[|before|..])
  }

  /** Some loop bound makes ms the mesh table the reader built. */
  ghost predicate HasMeshTable(v: TrVersion, ms: seq<Mesh>) {
    exists bound: nat :: MeshTable(v, ms, bound)
  }

  /** Two runs of appended textures, each well formed, make one. */
  lemma TexturesFromChain(v: TrVersion, a: seq<ObjectTexture>, b: seq<ObjectTexture>, c: seq<ObjectTexture>)
    requires a <= b <= c
    requires TexturesFrom(v, b, |a|) && TexturesFrom(v, c, |b|)
    ensures TexturesFrom(v, c, |a|)
  {
    forall k | |a| <= k < |c|
      ensures |c[k].vertices| == 16 && (!HasFaceLighting(v) ==> c[k].newFlags == 0)
    {
      if k < |b| {
        assert c[k] == b[k];
      }
    }
  }

  lemma TexturesFromAppend(v: TrVersion, ts: seq<ObjectTexture>, from: nat, t: ObjectTexture)
    requires TexturesFrom(v, ts, from)
    requires |t.vertices| == 16 && (!HasFaceLighting(v) ==> t.newFlags == 0)
    ensures TexturesFrom(v, ts + [t], from)
  {
  }

  /** tr_sound_details, with the fields TR1/TR2 records lack filled in. */
  datatype SoundDetails = SoundDetails(sample: int, volume: int, range: int, chance: int, pitch: int, characteristics: int)

  /** The details a sound-details record of version v describes: TR1/TR2 sounds all get range 8. */
  function SoundDetailsOf(v: TrVersion, r: seq<int>): (d: SoundDetails)
    requires |r| == |SoundDetailsLayout(v)|
    ensures d.sample == r[0] && d.volume == r[1] && d.characteristics == r[|r| - 1]
    ensures v == TR1 || v == TR2 ==> d.range == 8 && d.chance == r[2] && d.pitch == 0
    ensures v != TR1 && v != TR2 ==> d.range == r[2] && d.chance == r[3] && d.pitch == r[4]
  {
    if v == TR1 || v == TR2 then SoundDetails(r[0], r[1], 8, r[2], 0, r[3])
    else SoundDetails(r[0], r[1], r[2], r[3], r[4], r[5])
  }

  /** The bound of the mesh loop: numMeshData * 2 in uint arithmetic, which wraps at 2^32. */
  function MeshLoopBound(numMeshData: nat): nat {
    (numMeshData * 2) % 0x1_0000_0000
  }

  // ---------------------------------------------------------------------
  // Rooms and the skipped sections
  // ---------------------------------------------------------------------

  /** The room count after the unused u32: a u32 for TR5, a u16 otherwise. */
  function RoomCountField(v: TrVersion): Field {
    if v == TR5 then UInt else UShort
  }

  /** The room count of level data that starts at p. */
  function RoomCount(v: TrVersion, data: seq<byte>, p: nat): (n: nat)
    requires p + 4 + Width(RoomCountField(v)) <= |data|
    ensures v != TR5 ==> n == U16At(data, p + 4)
    ensures v == TR5 ==> n == U32At(data, p + 4)
  {
    FieldAt(data, p + 4, RoomCountField(v))
  }

  /** Bytes per room light: 18 for TR1, 24 for TR2 and TR3, 46 for TR4, none read otherwise. */
  function LightSize(v: TrVersion): nat {
    match v
    case TR1 => 18
    case TR2 => 24
    case TR3 => 24
    case TR4 => 46
    case _ => 0
  }

  /** Bytes of ambient intensity and light mode before a room's lights: 2 for TR1, 6 for TR2, 4 otherwise. */
  function AmbientSize(v: TrVersion): nat {
    2 + (if v != TR1 then 2 else 0) + (if v == TR2 then 2 else 0)
  }

  /** Bytes of room flags and alternate room: 4 for TR1 and TR2, 7 for TR3 and TR4, none otherwise. */
  function RoomFlagsSize(v: TrVersion): nat {
    match v
    case TR1 => 4
    case TR2 => 4
    case TR3 => 7
    case TR4 => 7
    case _ => 0
  }

  /** Bytes per room static mesh. */
  function RoomStaticSize(v: TrVersion): nat {
    if v == TR1 then 18 else 20
  }

  /** Bytes per box: 20 for TR1, 8 for the later games. */
  function BoxSize(v: TrVersion): nat {
    if v == TR1 then 20 else 8
  }

  /** Bytes of zone data per box: 12 for TR1, 20 for the later games. */
  function ZoneSize(v: TrVersion): nat {
    if v == TR1 then 12 else 20
  }

  /** Bytes per item (entity). */
  function EntitySize(v: TrVersion): nat {
    if v == TR1 then 22 else 24
  }

  /** Entries of the sound map: 256 for TR1, 370 for TR2-TR4, 450 for TR5, none otherwise. */
  function SoundMapLength(v: TrVersion): nat {
    match v
    case TR1 => 256
    case TR2 => 370
    case TR3 => 370
    case TR4 => 370
    case TR5 => 450
    case OtherVersion => 0
  }

  /** The catalog's game version for a level version: a TR4 level is read as a TR4/TRNG game. */
  function WadVersionOf(v: TrVersion): TrCatalog.WadGameVersion {
    match v
    case TR1 => TrCatalog.TR1
    case TR2 => TrCatalog.TR2
    case TR3 => TrCatalog.TR3
    case TR4 => TrCatalog.TR4_TRNG
    case TR5 => TrCatalog.TR5
    case OtherVersion => TrCatalog.UnknownVersion(0)
  }

  /**
   * The sound map the reader consumes has the size the catalog predicts for a
   * level that is not an NG level with demo data; the catalog refuses exactly
   * the versions the reader reads no sound map for.
   */
  lemma SoundMapSizeAgreesWithCatalog(v: TrVersion)
    ensures v != OtherVersion ==> TrCatalog.PredictSoundMapSize(WadVersionOf(v), false, 0) == W.Success(SoundMapLength(v) as int)
    ensures v == OtherVersion <==> TrCatalog.PredictSoundMapSize(WadVersionOf(v), false, 0).Failure?
  {
  }

  /** after is before with the version's whole sound map appended. */
  predicate SoundMapGrown(v: TrVersion, before: seq<int>, after: seq<int>) {
    before <= after && |after| == |before| + SoundMapLength(v)
  }

  /** The bytes of n boxes: 20 each for TR1, 8 each for the later games. */
  function BoxBytes(v: TrVersion, n: nat): nat {
    if v == TR1 then n * 20 else n * 8
  }

  /** The zone data of n boxes: 12 bytes per box for TR1, 20 for the later games. */
  function ZoneBytes(v: TrVersion, n: nat): nat {
    if v == TR1 then n * 12 else n * 20
  }

  /**
   * The boxes, overlaps and zones at p all lie inside the data: a u32 box
   * count n, n boxes, a u32 overlap count m, m overlaps, and n zones.
   */
  ghost predicate BoxesFit(v: TrVersion, data: seq<byte>, p: nat) {
    p + 4 <= |data| &&
    var n := U32At(data, p);
    p + 8 + BoxBytes(v, n) <= |data| &&
    p + 8 + BoxBytes(v, n) + 2 * U32At(data, p + 4 + BoxBytes(v, n)) + ZoneBytes(v, n) <= |data|
  }

  /** Where the zones end when boxes, overlaps and zones lie inside the data. */
  ghost function BoxesEnd(v: TrVersion, data: seq<byte>, p: nat): nat
    requires BoxesFit(v, data, p)
  {
    var n := U32At(data, p);
    p + 8 + BoxBytes(v, n) + 2 * U32At(data, p + 4 + BoxBytes(v, n)) + ZoneBytes(v, n)
  }

  /** A skip whose bytes lie inside data of at most MaxPosition bytes does not wrap. */
  lemma SkipFits(data: seq<byte>, p: nat, count: nat, size: nat)
    requires p + count * size <= |data| <= MaxPosition
    ensures SkipLength(count, size) == count * size
  {
    SkipLengthPlain(count, size);
  }

  /**
   * Boxes, overlaps and zones that lie inside data of at most MaxPosition
   * bytes: no skip length wraps.
   */
  lemma BoxesFitPlain(v: TrVersion, data: seq<byte>, p: nat)
    requires |data| <= MaxPosition && BoxesFit(v, data, p)
    ensures var n := U32At(data, p);
            var m := U32At(data, p + 4 + BoxBytes(v, n));
            SkipLength(n, BoxSize(v)) == BoxBytes(v, n) && SkipLength(m, 2) == m * 2 &&
            SkipLength(n, ZoneSize(v)) == ZoneBytes(v, n)
  {
    var n := U32At(data, p);
    var m := U32At(data, p + 4 + BoxBytes(v, n));
    if v == TR1 {
      SkipFits(data, p + 4, n, 20);
      SkipFits(data, p + 8 + n * 20, m, 2);
      SkipFits(data, p + 8 + n * 20 + m * 2, n, 12);
    } else {
      SkipFits(data, p + 4, n, 8);
      SkipFits(data, p + 8 + n * 8, m, 2);
      SkipFits(data, p + 8 + n * 8 + m * 2, n, 20);
    }
  }

  /** After the boxes: the overlap count lies inside the data, and the overlaps do not wrap. */
  lemma BoxesSkipped(v: TrVersion, data: seq<byte>, p: nat, a: nat)
    requires |data| <= MaxPosition && BoxesFit(v, data, p)
    requires SkipLength(U32At(data, p), BoxSize(v)) >= 0
    requires a == p + 4 + |Available(data, p + 4, SkipLength(U32At(data, p), BoxSize(v)))|
    ensures a == p + 4 + BoxBytes(v, U32At(data, p)) && a + 4 <= |data|
    ensures SkipLength(U32At(data, a), 2) >= 0
  {
    BoxesFitPlain(v, data, p);
  }

  /** After the zones: the position is where BoxesEnd says. */
  lemma ZonesSkipped(v: TrVersion, data: seq<byte>, p: nat, a: nat, b: nat, c: nat)
    requires |data| <= MaxPosition && BoxesFit(v, data, p)
    requires a == p + 4 + BoxBytes(v, U32At(data, p)) && a + 4 <= |data| && SkipLength(U32At(data, a), 2) >= 0
    requires b == a + 4 + |Available(data, a + 4, SkipLength(U32At(data, a), 2))|
    requires SkipLength(U32At(data, p), ZoneSize(v)) >= 0
    requires c == b + |Available(data, b, SkipLength(U32At(data, p), ZoneSize(v)))|
    ensures c == BoxesEnd(v, data, p)
  {
    var n := U32At(data, p);
    assert a == p + 4 + BoxBytes(v, n);
    var m := U32At(data, a);
    assert a + 4 + m * 2 + ZoneBytes(v, n) <= |data|;
    SkipExact(data, a + 4, m, 2);
    assert b == a + 4 + m * 2;
    ZonesExact(v, data, b, n);
    assert c == b + ZoneBytes(v, n);
  }

  /** A skip of count records of the given size that lies inside the data reads exactly those bytes. */
  lemma SkipExact(data: seq<byte>, q: nat, count: nat, size: nat)
    requires q + count * size <= |data| <= MaxPosition
    ensures |Available(data, q, count * size)| == count * size
    ensures SkipLength(count, size) == count * size
  {
    SkipFits(data, q, count, size);
  }

  lemma ZonesExact(v: TrVersion, data: seq<byte>, q: nat, n: nat)
    requires q + ZoneBytes(v, n) <= |data| <= MaxPosition
    ensures SkipLength(n, ZoneSize(v)) == ZoneBytes(v, n)
    ensures |Available(data, q, ZoneBytes(v, n))| == ZoneBytes(v, n)
  {
    if v == TR1 {
      SkipExact(data, q, n, 12);
    } else {
      SkipExact(data, q, n, 20);
    }
  }

  // ---------------------------------------------------------------------
  // The version word
  // ---------------------------------------------------------------------

  /** fileName.ToLower().Trim().EndsWith(".trc"). */
  predicate IsTrcName(fileName: string) {
    Text.EndsWith(Text.TrimWhiteSpace(Text.ToLower(fileName)), ".trc")
  }

  /** The version a level is read as: a TR4 header in a ".trc" file means TR5. */
  function EffectiveVersion(header: TrVersion, fileName: string): (v: TrVersion)
    ensures v == TR5 <==> header == TR5 || (header == TR4 && IsTrcName(fileName))
    ensures v != header ==> header == TR4 && v == TR5
  {
    if header == TR4 && IsTrcName(fileName) then TR5 else header
  }

  /**
   * A name made of a stem, a tail that starts and ends with characters other
   * than white space, and trailing white space: lower-cased and trimmed, it
   * ends with the lower-cased tail.
   */
  lemma TrimmedName(stem: string, tail: string, pad: string)
    requires tail != [] && !Text.IsWhiteSpace(tail[0]) && !Text.IsWhiteSpace(tail[|tail| - 1])
    requires forall i :: 0 <= i < |pad| ==> Text.IsWhiteSpace(pad[i])
    ensures Text.EndsWith(Text.TrimWhiteSpace(Text.ToLower(stem + tail + pad)), Text.ToLower(tail))
  {
    Text.ToLowerWhiteSpace(pad);
    LowerName(stem, tail, pad);
    LowerTail(tail);
    Text.TrimPadded(Text.ToLower(stem), Text.ToLower(tail), pad);
  }

  /** Lower-casing a name whose padding is its own lower case. */
  lemma LowerName(stem: string, tail: string, pad: string)
    requires Text.ToLower(pad) == pad
    ensures Text.ToLower(stem + tail + pad) == Text.ToLower(stem) + (Text.ToLower(tail) + pad)
  {
    var ls, lt := Text.ToLower(stem), Text.ToLower(tail);
    Text.ToLowerAppend(stem + tail, pad);
    Text.ToLowerAppend(stem, tail);
    Text.ConcatAssociates(ls, lt, pad);
  }

  /** Lower-casing keeps a tail's ends other than white space. */
  lemma LowerTail(tail: string)
    requires tail != [] && !Text.IsWhiteSpace(tail[0]) && !Text.IsWhiteSpace(tail[|tail| - 1])
    ensures var lt := Text.ToLower(tail);
            |lt| == |tail| && !Text.IsWhiteSpace(lt[0]) && !Text.IsWhiteSpace(lt[|lt| - 1])
  {
    Text.ToLowerCharWhiteSpace(tail[0]);
    Text.ToLowerCharWhiteSpace(tail[|tail| - 1]);
  }

  /** A name ending in ".trc" in any case, then white space, is a ".trc" name: a TR4 header in it means TR5. */
  lemma TrcNameQualifies(stem: string, ext: string, pad: string)
    requires Text.ToLower(ext) == ".trc"
    requires forall i :: 0 <= i < |pad| ==> Text.IsWhiteSpace(pad[i])
    ensures IsTrcName(stem + ext + pad)
    ensures EffectiveVersion(TR4, stem + ext + pad) == TR5
  {
    assert |ext| == 4 && Text.ToLowerChar(ext[0]) == '.' && Text.ToLowerChar(ext[3]) == 'c';
    TrimmedName(stem, ext, pad);
  }

  /** A name whose last character before the white space is not a 'c' or 'C' leaves a TR4 header TR4. */
  lemma OtherNameStaysTr4(stem: string, last: char, pad: string)
    requires !Text.IsWhiteSpace(last) && Text.ToLowerChar(last) != 'c'
    requires forall i :: 0 <= i < |pad| ==> Text.IsWhiteSpace(pad[i])
    ensures !IsTrcName(stem + [last] + pad)
    ensures EffectiveVersion(TR4, stem + [last] + pad) == TR4
  {
    TrimmedName(stem, [last], pad);
  }

  // ---------------------------------------------------------------------
  // The level
  // ---------------------------------------------------------------------

  /** The level's tables, filled by LoadLevel. */
  class TrLevel {
    var version: TrVersion
    var textureMap: seq<byte>
    var meshes: seq<Mesh>
    var meshPointers: seq<int>
    var animations: seq<seq<int>>
    var stateChanges: seq<seq<int>>
    var animDispatches: seq<seq<int>>
    var animCommands: seq<int>
    var meshTrees: seq<int>
    var frames: seq<int>
    var moveables: seq<seq<int>>
    var staticMeshes: seq<seq<int>>
    var objectTextures: seq<ObjectTexture>
    var spriteTextures: seq<seq<int>>
    var spriteSequences: seq<seq<int>>
    var soundMap: seq<int>
    var soundDetails: seq<SoundDetails>
    var samplesIndices: seq<int>
    /** The TR4/TR5 wave samples, each as its compressed bytes. */
    var samples: seq<seq<byte>>
    /** The level-data block the last load parsed. */
    ghost var levelData: seq<byte>

    /** A new level: empty tables, and the version whose header word is 0. */
    constructor (versionOf: nat -> TrVersion)
      ensures version == versionOf(0) && textureMap == [] && levelData == []
      ensures meshes == [] && meshPointers == [] && animations == [] && stateChanges == []
      ensures animDispatches == [] && animCommands == [] && meshTrees == [] && frames == []
      ensures moveables == [] && staticMeshes == [] && objectTextures == []
      ensures spriteTextures == [] && spriteSequences == []
      ensures soundMap == [] && soundDetails == [] && samplesIndices == [] && samples == []
    {
      version := versionOf(0);
      textureMap, levelData := [], [];
      meshes, meshPointers, animations, stateChanges := [], [], [], [];
      animDispatches, animCommands, meshTrees, frames := [], [], [], [];
      moveables, staticMeshes, objectTextures := [], [], [];
      spriteTextures, spriteSequences := [], [];
      soundMap, soundDetails, samplesIndices, samples := [], [], [], [];
    }

    /**
     * One mesh: centre and radius, vertices, normals (or, for a count n <= 0,
     * -n shades), textured quads and triangles and, for TR1-TR3, coloured
     * quads and triangles; meshSize is numBytes summed as the reader does.
     */
    method ReadMesh(lev: Reader) returns (r: W.Result<Mesh, LoadError>)
      modifies lev`pos
      ensures r.Success? ==> lev.pos == old(lev.pos) + ConsumedSize(version, r.value)
      ensures r.Success? ==> WellShaped(version, r.value) && r.value.meshSize == NumBytes(version, r.value)
      ensures r.Success? ==> r.value.meshPointer == 0
    {
      ghost var start := lev.pos;
      var center :- lev.ReadRecord(VertexLayout);
      var radius :- lev.ReadField(Int);
      var numBytes := 10;

      var vertices :- lev.ReadCounted(UShort, VertexLayout);
      ScaleBy(|vertices|, Size(VertexLayout), 6);
      numBytes := numBytes + 2 + 6 * |vertices|;
      assert lev.pos == start + 12 + 6 * |vertices|;

      var normalData :- ReadNormals(lev);
      var normals, shades := normalData.0, normalData.1;
      numBytes := numBytes + normalData.2;
      assert lev.pos == start + 12 + 6 * |vertices| + 2 + 6 * |normals| + 2 * |shades|;

      var faces :- ReadMeshFaces(lev);
      numBytes := numBytes + faces.4;
      var mesh := Mesh(center, radius, vertices, normals, shades, faces.0, faces.1, faces.2, faces.3, numBytes, 0);
      assert NumBytes(version, mesh) == numBytes - faces.4 + FaceBytes(version, mesh);
      r := W.Success(mesh);
    }

    /**
     * A mesh's normal count n, then n normals when n > 0 and otherwise -n
     * shades; also the bytes numBytes adds for them.
     */
    method ReadNormals(lev: Reader) returns (r: W.Result<(seq<seq<int>>, seq<seq<int>>, int), LoadError>)
      modifies lev`pos
      ensures r.Success? ==> lev.pos == old(lev.pos) + 2 + 6 * |r.value.0| + 2 * |r.value.1|
      ensures r.Success? ==> r.value.0 == [] || r.value.1 == []
      ensures r.Success? ==> r.value.2 == if |r.value.0| > 0 then 2 + 6 * |r.value.0| else 2 + 2 * |r.value.1|
    {
      var numNormals :- lev.ReadField(Short);
      if numNormals > 0 {
        var normals :- lev.ReadRecords(numNormals, VertexLayout);
        ScaleBy(numNormals, Size(VertexLayout), 6);
        return W.Success((normals, [], 2 + 6 * numNormals));
      } else {
        var numShades: nat := -numNormals;
        var shades :- lev.ReadRecords(numShades, ShadeLayout);
        ScaleBy(numShades, Size(ShadeLayout), 2);
        return W.Success(([], shades, 2 - 2 * numNormals));
      }
    }

    /**
     * The faces of a mesh: textured quads and triangles, then for TR1-TR3
     * coloured quads and triangles; also the bytes numBytes adds for them.
     */
    method ReadMeshFaces(lev: Reader) returns (r: W.Result<(seq<seq<int>>, seq<seq<int>>, seq<seq<int>>, seq<seq<int>>, int), LoadError>)
      modifies lev`pos
      ensures r.Success? ==> lev.pos == old(lev.pos) + 4 + TexturedFacesSize(version, |r.value.0|, |r.value.1|) +
                                         (if IsClassic(version) then 4 + 10 * |r.value.2| + 8 * |r.value.3| else 0)
      ensures r.Success? ==> Arity(r.value.0, if HasFaceLighting(version) then 6 else 5)
      ensures r.Success? ==> Arity(r.value.1, if HasFaceLighting(version) then 5 else 4)
      ensures r.Success? && !IsClassic(version) ==> r.value.2 == [] && r.value.3 == []
      ensures r.Success? ==> r.value.4 == FaceBytes(version, Mesh([], 0, [], [], [], r.value.0, r.value.1, r.value.2, r.value.3, 0, 0))
    {
      var textured :- ReadTexturedFaces(lev);
      var quads, triangles := textured.0, textured.1;
      var coloured: (seq<seq<int>>, seq<seq<int>>) := ([], []);
      if IsClassic(version) {
        coloured :- ReadColouredFaces(lev);
      }
      var colouredQuads, colouredTriangles := coloured.0, coloured.1;

      var numBytes := 0;
      if IsClassic(version) {
        numBytes := numBytes + 2 + |quads| * 10;
        numBytes := numBytes + 2 + |triangles| * 8;
        numBytes := numBytes + 2 + |colouredQuads| * 10;
        numBytes := numBytes + 2 + |colouredTriangles| * 8;
      } else {
        numBytes := numBytes + 2 + |quads| * 12;
        numBytes := numBytes + 2 + |triangles| * 10;
      }
      return W.Success((quads, triangles, colouredQuads, colouredTriangles, numBytes));
    }

    /** The textured quads and triangles of a mesh, each with a lighting effect for TR4/TR5. */
    method ReadTexturedFaces(lev: Reader) returns (r: W.Result<(seq<seq<int>>, seq<seq<int>>), LoadError>)
      modifies lev`pos
      ensures r.Success? ==> lev.pos == old(lev.pos) + 4 + TexturedFacesSize(version, |r.value.0|, |r.value.1|)
      ensures r.Success? ==> Arity(r.value.0, if HasFaceLighting(version) then 6 else 5)
      ensures r.Success? ==> Arity(r.value.1, if HasFaceLighting(version) then 5 else 4)
    {
      var quads :- lev.ReadCounted(UShort, TexturedQuadLayout(version));
      ScaleBy(|quads|, Size(TexturedQuadLayout(version)), if HasFaceLighting(version) then 12 else 10);
      var triangles :- lev.ReadCounted(UShort, TexturedTriangleLayout(version));
      ScaleBy(|triangles|, Size(TexturedTriangleLayout(version)), if HasFaceLighting(version) then 10 else 8);
      r := W.Success((quads, triangles));
    }

    /** The coloured quads and triangles of a TR1-TR3 mesh. */
    method ReadColouredFaces(lev: Reader) returns (r: W.Result<(seq<seq<int>>, seq<seq<int>>), LoadError>)
      modifies lev`pos
      ensures r.Success? ==> lev.pos == old(lev.pos) + 4 + 10 * |r.value.0| + 8 * |r.value.1|
    {
      var quads :- lev.ReadCounted(UShort, ColouredQuadLayout);
      ScaleBy(|quads|, Size(ColouredQuadLayout), 10);
      var triangles :- lev.ReadCounted(UShort, ColouredTriangleLayout);
      ScaleBy(|triangles|, Size(ColouredTriangleLayout), 8);
      r := W.Success((quads, triangles));
    }

    /**
     * One turn of the mesh loop: a mesh, two padding bytes when its length is
     * not a multiple of four, and totalBytes as its pointer; also the number
     * of bytes the turn consumed (diff).
     */
    method ReadPaddedMesh(lev: Reader, totalBytes: nat) returns (r: W.Result<(Mesh, nat), LoadError>)
      modifies lev`pos
      ensures r.Success? ==> r.value.1 == PaddedSize(version, r.value.0) && lev.pos == old(lev.pos) + r.value.1
      ensures r.Success? ==> r.value.0.meshPointer == totalBytes
      ensures r.Success? ==> WellShaped(version, r.value.0) && r.value.0.meshSize == NumBytes(version, r.value.0)
    {
      var start := lev.pos;
      var read :- ReadMesh(lev);
      var diff := lev.pos - start;
      if diff % 4 != 0 {
        var padding :- lev.ReadField(UShort);
        diff := diff + 2;
      }
      var mesh := read.(meshPointer := totalBytes);
      PointerKeepsShape(version, read, totalBytes);
      return W.Success((mesh, diff));
    }

    /**
     * The mesh data: numMeshData, then meshes while totalBytes is below
     * numMeshData * 2; each mesh padded to a multiple of four bytes gets
     * totalBytes as its MeshPointer. The table is replaced, not appended to.
     */
    method ReadMeshes(lev: Reader) returns (r: W.Result<(), LoadError>)
      modifies lev`pos, this`meshes
      ensures r.Success? ==> old(lev.pos) + 4 <= |lev.data|
      ensures r.Success? ==> MeshTable(version, meshes, MeshLoopBound(U32At(lev.data, old(lev.pos))))
    {
      var numMeshData :- lev.ReadField(UInt);
      var bound := MeshLoopBound(numMeshData);
      var totalBytes: int := 0;
      meshes := [];
      while totalBytes < bound
        invariant totalBytes == TotalSize(version, meshes)
        invariant PointersRunning(version, meshes)
        invariant MeshesRead(version, meshes, bound)
        decreases bound - totalBytes
      {
        var step :- ReadPaddedMesh(lev, totalBytes);
        var mesh, diff := step.0, step.1;
        RunningAppend(version, meshes, mesh);
        MeshesReadAppend(version, meshes, mesh, bound);
        totalBytes := totalBytes + diff;
        meshes := meshes + [mesh];
      }
      return W.Success(());
    }

    /**
     * The rooms, skipped: an unused u32, the room count, then each room. A
     * TR1-TR4 room takes its light count from the file reader (outer), not
     * from the level data, so every such room moves outer on by two bytes.
     */
    method ReadRooms(lev: Reader, outer: Reader) returns (r: W.Result<(), LoadError>)
      requires lev != outer
      modifies lev`pos, outer`pos
      ensures r.Success? ==> old(lev.pos) + 4 + Width(RoomCountField(version)) <= |lev.data|
      ensures r.Success? && version != TR5 ==>
        outer.pos == old(outer.pos) + 2 * RoomCount(version, lev.data, old(lev.pos))
      ensures r.Success? && version != TR5 && RoomCount(version, lev.data, old(lev.pos)) > 0 ==>
        outer.pos <= |outer.data|
      ensures version == TR5 ==> outer.pos == old(outer.pos)
    {
      var unused :- lev.ReadField(UInt);
      var numRooms :- lev.ReadField(RoomCountField(version));
      for i := 0 to numRooms
        invariant version != TR5 ==> outer.pos == old(outer.pos) + 2 * i
        invariant version != TR5 && i > 0 ==> outer.pos <= |outer.data|
        invariant version == TR5 ==> outer.pos == old(outer.pos)
      {
        if version != TR5 {
          var room :- SkipClassicRoom(lev, outer);
        } else {
          var room :- SkipTr5Room(lev);
        }
      }
      r := W.Success(());
    }

    /**
     * One TR1-TR4 room, skipped: its geometry, its lights and its static
     * meshes and flags.
     */
    method SkipClassicRoom(lev: Reader, outer: Reader) returns (r: W.Result<(), LoadError>)
      requires lev != outer
      modifies lev`pos, outer`pos
      ensures r.Success? ==> outer.pos == old(outer.pos) + 2 && outer.pos <= |outer.data|
      ensures old(outer.pos) + 2 > |outer.data| ==> r.Failure?
    {
      var geometry :- SkipRoomGeometry(lev);
      var lights :- SkipRoomLights(lev, outer);
      var statics :- SkipRoomStatics(lev);
      r := W.Success(());
    }

    /** Room info, data words, portals and sectors. */
    method SkipRoomGeometry(lev: Reader) returns (r: W.Result<(), LoadError>)
      modifies lev`pos
      ensures r.Success? ==> old(lev.pos) + 20 <= lev.pos
    {
      lev.Skip(16);
      var numDataWords :- lev.ReadField(UInt);
      var dataWords :- lev.ReadBytes(SkipLength(numDataWords, 2));
      var numPortals :- lev.ReadField(UShort);
      lev.Skip(numPortals * 32);
      var numXsectors :- lev.ReadField(UShort);
      var numZsectors :- lev.ReadField(UShort);
      MulNonNegative(numXsectors, numZsectors);
      var numSectors: nat := numXsectors * numZsectors;
      var sectors :- lev.ReadBytes(SkipLength(numSectors, 8));
      r := W.Success(());
    }

    /**
     * Ambient intensities (one for TR1, two otherwise), the TR2 light mode,
     * and the lights, whose count is read from the file reader (outer): the
     * level data moves on by numLights * LightSize(version) bytes, or to its
     * end when fewer are left.
     */
    method SkipRoomLights(lev: Reader, outer: Reader) returns (r: W.Result<(), LoadError>)
      requires lev != outer
      modifies lev`pos, outer`pos
      ensures r.Success? <==> old(lev.pos) + AmbientSize(version) <= |lev.data| && old(outer.pos) + 2 <= |outer.data|
      ensures r.Success? ==> outer.pos == old(outer.pos) + 2
      ensures r.Success? ==>
        lev.pos == SkipEnd(lev.data, old(lev.pos) + AmbientSize(version), U16At(outer.data, old(outer.pos)) * LightSize(version))
    {
      var ambient :- lev.ReadField(UShort);
      if version != TR1 {
        var ambient2 :- lev.ReadField(UShort);
      }
      if version == TR2 {
        var lightMode :- lev.ReadField(UShort);
      }
      assert lev.pos == old(lev.pos) + AmbientSize(version);
      var numLights :- outer.ReadField(UShort);
      var lightBytes: nat := numLights * LightSize(version);
      if LightSize(version) > 0 {
        lev.Skip(lightBytes);
      }
      AvailableEnd(lev.data, old(lev.pos) + AmbientSize(version), lightBytes);
      r := W.Success(());
    }

    /**
     * The room's static meshes (RoomStaticSize(version) bytes each) and its
     * flags (RoomFlagsSize(version) bytes): the level data moves on by both,
     * or to its end when fewer bytes are left.
     */
    method SkipRoomStatics(lev: Reader) returns (r: W.Result<(), LoadError>)
      modifies lev`pos
      ensures r.Success? <==> old(lev.pos) + 2 <= |lev.data|
      ensures r.Success? ==>
        lev.pos == SkipEnd(lev.data, old(lev.pos) + 2, U16At(lev.data, old(lev.pos)) * RoomStaticSize(version) + RoomFlagsSize(version))
    {
      var numStatics :- lev.ReadField(UShort);
      ghost var start := lev.pos;
      var staticBytes: nat := numStatics * RoomStaticSize(version);
      lev.Skip(staticBytes);
      AvailableEnd(lev.data, start, staticBytes);
      ghost var mid := lev.pos;
      if RoomFlagsSize(version) > 0 {
        lev.Skip(RoomFlagsSize(version));
      }
      AvailableEnd(lev.data, mid, RoomFlagsSize(version));
      r := W.Success(());
    }

    /** One TR5 room, skipped by its size field: "XELA", the size, and a seek past the room. */
    method SkipTr5Room(lev: Reader) returns (r: W.Result<(), LoadError>)
      modifies lev`pos
      ensures r.Success? <==> old(lev.pos) + 8 <= |lev.data| &&
                              old(lev.pos) + 8 + U32At(lev.data, old(lev.pos) + 4) <= MaxPosition
      ensures r.Success? ==> lev.pos == old(lev.pos) + 8 + U32At(lev.data, old(lev.pos) + 4)
    {
      lev.Skip(4);
      var roomDataSize :- lev.ReadField(UInt);
      var skipped :- lev.Seek(roomDataSize);
      r := W.Success(());
    }

    /**
     * Mesh pointers, animations, state changes and anim dispatches, each a
     * u32 count and its records. The tables are replaced, not appended to.
     */
    method ReadAnimations(lev: Reader) returns (r: W.Result<(), LoadError>)
      modifies lev`pos, this`meshPointers, this`animations, this`stateChanges, this`animDispatches
      ensures r.Success? ==> old(lev.pos) + 4 <= |lev.data| && |meshPointers| == U32At(lev.data, old(lev.pos))
      ensures r.Success? ==> ValuesAt(lev.data, old(lev.pos) + 4, UInt, meshPointers)
      ensures r.Success? ==> AnimationTablesShaped(version, animations, stateChanges, animDispatches)
    {
      var pointers :- lev.ReadValues(UInt);
      var tables :- lev.ReadAnimationTables(version);
      meshPointers, animations, stateChanges, animDispatches := pointers, tables.0, tables.1, tables.2;
      r := W.Success(());
    }

    /**
     * Anim commands (u16), mesh trees (i32) and frames (i16), each a u32
     * count and its values. The tables are replaced, not appended to.
     */
    method ReadAnimationData(lev: Reader) returns (r: W.Result<(), LoadError>)
      modifies lev`pos, this`animCommands, this`meshTrees, this`frames
      ensures r.Success? ==> old(lev.pos) + 4 <= |lev.data| && |animCommands| == U32At(lev.data, old(lev.pos))
      ensures r.Success? ==> ValuesAt(lev.data, old(lev.pos) + 4, UShort, animCommands)
      ensures r.Success? ==> AnimationDataInRange(animCommands, meshTrees, frames)
    {
      var commands :- lev.ReadValues(UShort);
      animCommands := commands;
      var trees :- lev.ReadValues(Int);
      meshTrees := trees;
      var frameValues :- lev.ReadValues(Short);
      frames := frameValues;
      r := W.Success(());
    }

    /**
     * Moveables (with TR5's padding u16 after each dropped) and static
     * meshes. The tables are replaced, not appended to.
     */
    method ReadModels(lev: Reader) returns (r: W.Result<(), LoadError>)
      modifies lev`pos, this`moveables, this`staticMeshes
      ensures r.Success? ==> old(lev.pos) + 4 <= |lev.data| && |moveables| == U32At(lev.data, old(lev.pos))
      ensures r.Success? ==> ModelsShaped(moveables, staticMeshes)
    {
      var tables :- lev.ReadModelTables(version);
      moveables, staticMeshes := tables.0, tables.1;
      r := W.Success(());
    }

    /**
     * count object-texture records, each followed for TR4 by 16 and for TR5
     * by 18 skipped bytes, appended one by one: a load that fails part-way
     * keeps the textures read before the failure.
     */
    method AppendObjectTextures(lev: Reader, count: nat) returns (r: W.Result<(), LoadError>)
      modifies lev`pos, this`objectTextures
      ensures old(objectTextures) <= objectTextures
      ensures r.Success? ==> |objectTextures| == |old(objectTextures)| + count
      ensures TexturesFrom(version, objectTextures, |old(objectTextures)|)
    {
      for i := 0 to count
        invariant |objectTextures| == |old(objectTextures)| + i
        invariant old(objectTextures) <= objectTextures
        invariant TexturesFrom(version, objectTextures, |old(objectTextures)|)
      {
        var record :- lev.ReadRecord(ObjectTextureLayout(version));
        if ObjectTextureTail(version) > 0 {
          lev.Skip(ObjectTextureTail(version));
        }
        TexturesFromAppend(version, objectTextures, |old(objectTextures)|, ObjectTextureOf(version, record));
        objectTextures := objectTextures + [ObjectTextureOf(version, record)];
      }
      r := W.Success(());
    }

    /**
     * TR1/TR2 object textures, whose count is read from the file reader
     * (outer) and whose records from the level data; the "SPR" marker of
     * TR4 (3 bytes) and TR5 (4 bytes); the sprite textures and sprite
     * sequences. All are appended to the level's lists.
     */
    method ReadTextures(lev: Reader, outer: Reader) returns (r: W.Result<(), LoadError>)
      requires lev != outer
      modifies lev`pos, outer`pos, this`objectTextures, this`spriteTextures, this`spriteSequences
      ensures (version == TR1 || version == TR2) && old(outer.pos) + 4 > |outer.data| ==> r.Failure?
      ensures old(objectTextures) <= objectTextures
      ensures r.Success? && (version == TR1 || version == TR2) ==>
        |objectTextures| == |old(objectTextures)| + U32At(outer.data, old(outer.pos))
      ensures version != TR1 && version != TR2 ==> objectTextures == old(objectTextures)
      ensures TexturesFrom(version, objectTextures, |old(objectTextures)|)
      ensures r.Success? ==> old(spriteTextures) <= spriteTextures && old(spriteSequences) <= spriteSequences
    {
      if version == TR1 || version == TR2 {
        var numObjectTextures :- outer.ReadField(UInt);
        var appended :- AppendObjectTextures(lev, numObjectTextures);
      }
      if version == TR4 {
        lev.Skip(3);
      }
      if version == TR5 {
        lev.Skip(4);
      }
      var sprites :- lev.ReadSpriteTables();
      spriteTextures, spriteSequences := spriteTextures + sprites.0, spriteSequences + sprites.1;
      r := W.Success(());
    }

    /**
     * Boxes (20 bytes each for TR1, 8 otherwise), overlaps (a u16 each) and
     * the zones, whose count is the box count again (12 bytes each for TR1,
     * 20 otherwise). When they all lie inside the data, exactly their bytes
     * are consumed.
     */
    method SkipBoxes(lev: Reader) returns (r: W.Result<(), LoadError>)
      modifies lev`pos
      ensures r.Success? ==> old(lev.pos) + 4 <= |lev.data|
      ensures |lev.data| <= MaxPosition && BoxesFit(version, lev.data, old(lev.pos)) ==> r.Success?
      ensures r.Success? && |lev.data| <= MaxPosition && BoxesFit(version, lev.data, old(lev.pos)) ==>
        lev.pos == BoxesEnd(version, lev.data, old(lev.pos))
    {
      ghost var p := lev.pos;
      ghost var fits := |lev.data| <= MaxPosition && BoxesFit(version, lev.data, p);
      if fits {
        BoxesFitPlain(version, lev.data, p);
      }
      var numBoxes :- lev.SkipCounted(BoxSize(version));
      ghost var afterBoxes := lev.pos;
      if fits {
        BoxesSkipped(version, lev.data, p, afterBoxes);
      }
      var numOverlaps :- lev.SkipCounted(2);
      ghost var afterOverlaps := lev.pos;
      var zones :- lev.ReadBytes(SkipLength(numBoxes, ZoneSize(version)));
      if fits {
        ZonesSkipped(version, lev.data, p, afterBoxes, afterOverlaps, lev.pos);
      }
      r := W.Success(());
    }

    /**
     * The object textures of TR3-TR5, after the sprite data: for TR4/TR5 a
     * 5-byte marker, then a u32 count and the records, appended.
     */
    method ReadLaterObjectTextures(lev: Reader) returns (r: W.Result<(), LoadError>)
      modifies lev`pos, this`objectTextures
      ensures old(objectTextures) <= objectTextures
      ensures TexturesFrom(version, objectTextures, |old(objectTextures)|)
      ensures version != TR3 && version != TR4 && version != TR5 ==> objectTextures == old(objectTextures)
      ensures r.Success? && version == TR3 ==>
        old(lev.pos) + 4 <= |lev.data| && |objectTextures| == |old(objectTextures)| + U32At(lev.data, old(lev.pos))
      ensures r.Success? && HasFaceLighting(version) ==>
        old(lev.pos) + 9 <= |lev.data| && |objectTextures| == |old(objectTextures)| + U32At(lev.data, old(lev.pos) + 5)
    {
      if version == TR3 || version == TR4 || version == TR5 {
        if HasFaceLighting(version) {
          lev.Skip(5);
        }
        var numObjectTextures :- lev.ReadField(UInt);
        var appended :- AppendObjectTextures(lev, numObjectTextures);
      }
      r := W.Success(());
    }

    /**
     * The sections between the sprite sequences and the sound map: cameras
     * (16 bytes each), TR4/TR5 flyby cameras (40), sound sources (16), boxes,
     * overlaps and zones, animated textures (2), the TR3-TR5 object textures,
     * and the items and what follows them.
     */
    method ReadScene(lev: Reader) returns (r: W.Result<(), LoadError>)
      modifies lev`pos, this`objectTextures
      ensures old(objectTextures) <= objectTextures
      ensures TexturesFrom(version, objectTextures, |old(objectTextures)|)
      ensures version != TR3 && version != TR4 && version != TR5 ==> objectTextures == old(objectTextures)
    {
      var numCameras :- lev.SkipCounted(16);
      if HasFaceLighting(version) {
        var numFlybyCameras :- lev.SkipCounted(40);
      }
      var numSoundSources :- lev.SkipCounted(16);
      var boxes :- SkipBoxes(lev);
      var numAnimatedTextures :- lev.SkipCounted(2);
      var textures :- ReadLaterObjectTextures(lev);
      var items :- SkipItems(lev);
      r := W.Success(());
    }

    /**
     * Items (22 bytes each for TR1, 24 otherwise); for TR1-TR3 the light map
     * (8192 bytes), the TR1 palette (256 colours) and the cinematic frames
     * (a u16 count, 16 bytes each); TR4/TR5 AI objects (24 bytes each); and
     * the demo data (a u16 count of bytes).
     */
    method SkipItems(lev: Reader) returns (r: W.Result<(), LoadError>)
      modifies lev`pos
      ensures r.Success? ==> old(lev.pos) + 4 <= |lev.data|
    {
      var numEntities :- lev.SkipCounted(EntitySize(version));
      if IsClassic(version) {
        lev.Skip(8192);
        if version == TR1 {
          var palette :- lev.ReadRecords(256, Colour3Layout);
        }
        var numCinematicFrames :- lev.ReadField(UShort);
        lev.Skip(numCinematicFrames * 16);
      }
      if HasFaceLighting(version) {
        var numAI :- lev.SkipCounted(24);
      }
      var numDemoData :- lev.ReadField(UShort);
      lev.Skip(numDemoData);
      r := W.Success(());
    }

    /**
     * The sound map (SoundMapLength(version) i16 entries), the sound details
     * and the sample indices, each appended to the level's list.
     */
    method ReadSounds(lev: Reader) returns (r: W.Result<(), LoadError>)
      modifies lev`pos, this`soundMap, this`soundDetails, this`samplesIndices
      ensures r.Success? ==> SoundMapGrown(version, old(soundMap), soundMap)
      ensures r.Success? ==> ValuesAt(lev.data, old(lev.pos), Short, soundMap[|old(soundMap)|..])
      ensures r.Success? ==> old(soundDetails) <= soundDetails && old(samplesIndices) <= samplesIndices
      ensures r.Success? && (version == TR1 || version == TR2) ==> ClassicRangeFrom(soundDetails, |old(soundDetails)|)
    {
      var entries :- lev.ReadFieldArray(SoundMapLength(version), Short);
      soundMap := soundMap + entries;
      assert soundMap[|old(soundMap)|..] == entries;
      var details :- ReadSoundDetails(lev);
      if version == TR1 || version == TR2 {
        ClassicRangeAppend(soundDetails, details);
      }
      soundDetails := soundDetails + details;
      var indices :- lev.ReadValues(UInt);
      samplesIndices := samplesIndices + indices;
      r := W.Success(());
    }

    /**
     * A u32 count of sound-details records, 8 bytes each; TR1 and TR2 records
     * get the classic range and pitch.
     */
    method ReadSoundDetails(lev: Reader) returns (r: W.Result<seq<SoundDetails>, LoadError>)
      modifies lev`pos
      ensures r.Success? ==> old(lev.pos) + 4 <= |lev.data| && |r.value| == U32At(lev.data, old(lev.pos))
      ensures r.Success? ==> lev.pos == old(lev.pos) + 4 + 8 * |r.value|
      ensures r.Success? ==> SoundDetailsAt(version, lev.data, old(lev.pos) + 4, r.value)
      ensures r.Success? && (version == TR1 || version == TR2) ==> ClassicRangeFrom(r.value, 0)
    {
      var records :- lev.ReadCounted(UInt, SoundDetailsLayout(version));
      r := W.Success(SoundDetailsOfAll(version, records));
      assert RecordsAt(lev.data, old(lev.pos) + 4, SoundDetailsLayout(version), records);
    }

    /**
     * Rooms (skipped, reading the classic rooms' light counts from the
     * outer reader), floor data (u16 words, skipped) and the meshes.
     */
    method ReadGeometry(lev: Reader, outer: Reader) returns (r: W.Result<(), LoadError>)
      requires lev != outer
      modifies lev`pos, outer`pos, this`meshes
      ensures r.Success? ==> old(lev.pos) + 4 + Width(RoomCountField(version)) <= |lev.data|
      ensures r.Success? && old(outer.pos) >= |outer.data| ==>
        outer.pos == old(outer.pos) && (version != TR5 ==> RoomCount(version, lev.data, old(lev.pos)) == 0)
      ensures r.Success? ==> HasMeshTable(version, meshes)
    {
      var rooms :- ReadRooms(lev, outer);
      var floorData :- lev.SkipCounted(2);
      ghost var meshStart := lev.pos;
      var meshTable :- ReadMeshes(lev);
      ghost var bound := MeshLoopBound(U32At(lev.data, meshStart));
      assert MeshTable(version, meshes, bound);
      assert HasMeshTable(version, meshes);
      r := W.Success(());
    }

    /** Mesh pointers and the animation tables, animation data, moveables and static meshes. */
    method ReadObjects(lev: Reader) returns (r: W.Result<(), LoadError>)
      modifies lev`pos, this`meshPointers, this`animations, this`stateChanges, this`animDispatches
      modifies this`animCommands, this`meshTrees, this`frames, this`moveables, this`staticMeshes
      ensures r.Success? ==> AnimationTablesShaped(version, animations, stateChanges, animDispatches)
      ensures r.Success? ==> ModelsShaped(moveables, staticMeshes)
      ensures r.Success? ==> AnimationDataInRange(animCommands, meshTrees, frames)
    {
      var animationTables :- ReadAnimations(lev);
      var animationData :- ReadAnimationData(lev);
      var models :- ReadModels(lev);
      r := W.Success(());
    }

    /**
     * Object textures (TR1/TR2, their count from the outer reader), sprites,
     * the scene sections and the sounds.
     */
    method ReadTail(lev: Reader, outer: Reader) returns (r: W.Result<(), LoadError>)
      requires lev != outer
      modifies lev`pos, outer`pos, this`objectTextures, this`spriteTextures, this`spriteSequences
      modifies this`soundMap, this`soundDetails, this`samplesIndices
      ensures (version == TR1 || version == TR2) && old(outer.pos) + 4 > |outer.data| ==> r.Failure?
      ensures old(objectTextures) <= objectTextures
      ensures TexturesFrom(version, objectTextures, |old(objectTextures)|)
      ensures r.Success? ==> SoundMapGrown(version, old(soundMap), soundMap)
      ensures r.Success? && (version == TR1 || version == TR2) ==> ClassicRangeFrom(soundDetails, |old(soundDetails)|)
    {
      ghost var before := objectTextures;
      var textures :- ReadTextures(lev, outer);
      ghost var middle := objectTextures;
      var scene :- ReadScene(lev);
      TexturesFromChain(version, before, middle, objectTextures);
      var sounds :- ReadSounds(lev);
      r := W.Success(());
    }

    /**
     * The level data, section by section. For TR1 and TR2 a load whose
     * outer reader is at the end of the file fails; for TR3 it succeeds
     * only with no rooms.
     */
    method ReadLevelData(lev: Reader, outer: Reader) returns (r: W.Result<(), LoadError>)
      requires lev != outer
      modifies lev`pos, outer`pos, this`meshes, this`meshPointers, this`animations, this`stateChanges
      modifies this`animDispatches, this`animCommands, this`meshTrees, this`frames, this`moveables
      modifies this`staticMeshes, this`objectTextures, this`spriteTextures, this`spriteSequences
      modifies this`soundMap, this`soundDetails, this`samplesIndices
      ensures (version == TR1 || version == TR2) && old(outer.pos) >= |outer.data| ==> r.Failure?
      ensures r.Success? && version == TR3 && old(outer.pos) >= |outer.data| ==> Roomless(lev.data, old(lev.pos))
      ensures r.Success? ==> HasMeshTable(version, meshes)
    {
      r := ReadGeometry(lev, outer);
      if r.Success? {
        ghost var outerPos := outer.pos;
        assert HasMeshTable(version, meshes);
        r := ReadObjects(lev);
        assert outer.pos == outerPos && HasMeshTable(version, meshes);
        if r.Success? {
          r := ReadTail(lev, outer);
        }
      }
    }

    /**
     * The version word: the header's version, made TR5 for a TR4 header in
     * a file whose name ends in ".trc".
     */
    method ReadVersion(reader: Reader, fileName: string, versionOf: nat -> TrVersion) returns (r: W.Result<(), LoadError>)
      modifies reader`pos, this`version
      ensures r.Success? <==> old(reader.pos) + 4 <= |reader.data|
      ensures r.Success? ==> reader.pos == old(reader.pos) + 4
      ensures r.Success? ==> version == EffectiveVersion(versionOf(U32At(reader.data, old(reader.pos))), fileName)
      ensures r.Failure? ==> r.error == EndOfStream && version == old(version) && reader.pos == old(reader.pos)
    {
      var header :- reader.ReadField(UInt);
      version := EffectiveVersion(versionOf(header), fileName);
      r := W.Success(());
    }

    /**
     * Everything between the version word and the level data: the TR2/TR3
     * palettes, the TR1-TR3 texture tiles (8-bit, and for TR2/TR3 16-bit),
     * and for TR4/TR5 the three tile counts and three compressed texture
     * blocks, of which only the first, inflated, is kept as the texture map.
     */
    method ReadTextureTiles(reader: Reader, inflate: seq<byte> -> seq<byte>) returns (r: W.Result<(), LoadError>)
      modifies reader`pos, this`textureMap
      ensures old(reader.pos) <= |reader.data| ==> reader.pos <= |reader.data|
      ensures !HasFaceLighting(version) ==> textureMap == old(textureMap)
      ensures r.Success? && HasFaceLighting(version) ==> old(reader.pos) + 14 <= |reader.data|
      ensures r.Success? && IsClassic(version) ==> old(reader.pos) + 4 <= |reader.data|
    {
      if version == TR2 || version == TR3 {
        var palettes :- reader.SkipPalettes();
      }
      if IsClassic(version) {
        var numTextureTiles :- reader.ReadField(UInt);
        var texture8 :- reader.ReadBytes(SkipLength(numTextureTiles, 0x1_0000));
        if version != TR1 {
          var texture16 :- reader.ReadBytes(SkipLength(numTextureTiles, 0x2_0000));
        }
      }
      if HasFaceLighting(version) {
        var blocks :- ReadTextureBlocks(reader, inflate);
      }
      r := W.Success(());
    }

    /**
     * The TR4/TR5 texture section: three u16 tile counts and three
     * compressed blocks; the first, inflated, becomes the texture map.
     */
    method ReadTextureBlocks(reader: Reader, inflate: seq<byte> -> seq<byte>) returns (r: W.Result<(), LoadError>)
      modifies reader`pos, this`textureMap
      ensures old(reader.pos) <= |reader.data| ==> reader.pos <= |reader.data|
      ensures r.Success? ==> BlockFits(reader.data, old(reader.pos) + 6)
      ensures r.Success? ==> textureMap == inflate(CompressedBlock(reader.data, old(reader.pos) + 6))
    {
      var numRoomTiles :- reader.ReadField(UShort);
      var numObjectTiles :- reader.ReadField(UShort);
      var numBumpTiles :- reader.ReadField(UShort);
      var packed :- ReadCompressedBlock(reader);
      textureMap := inflate(packed);
      r := SkipCompressedBlocks(reader);
    }

    /** The 16-bit and the misc texture blocks, read and discarded. */
    static method SkipCompressedBlocks(reader: Reader) returns (r: W.Result<(), LoadError>)
      modifies reader`pos
      ensures old(reader.pos) <= |reader.data| ==> reader.pos <= |reader.data|
      ensures r.Success? ==> BlockFits(reader.data, old(reader.pos))
    {
      var texture16 :- ReadCompressedBlock(reader);
      var miscTextures :- ReadCompressedBlock(reader);
      r := W.Success(());
    }

    /** An uncompressed and a compressed size (u32 each), then ReadBytes((int)compressedSize). */
    static method ReadCompressedBlock(reader: Reader) returns (r: W.Result<seq<byte>, LoadError>)
      modifies reader`pos
      ensures old(reader.pos) <= |reader.data| ==> reader.pos <= |reader.data|
      ensures r.Success? <==> BlockFits(reader.data, old(reader.pos))
      ensures r.Success? ==> r.value == CompressedBlock(reader.data, old(reader.pos))
      ensures r.Success? ==> reader.pos == old(reader.pos) + 8 + |r.value|
    {
      var uncompressedSize :- reader.ReadField(UInt);
      var compressedSize :- reader.ReadField(UInt);
      r := reader.ReadBytes(Int32(compressedSize));
    }

    /**
     * The level data: for TR1-TR3 the rest of the file, for TR4 a
     * compressed block, inflated, and otherwise (TR5 and any other version)
     * 32 skipped bytes and then a block kept as it is.
     */
    method ReadLevelBytes(reader: Reader, inflate: seq<byte> -> seq<byte>) returns (r: W.Result<seq<byte>, LoadError>)
      modifies reader`pos
      ensures IsClassic(version) && r.Success? && |reader.data| <= MaxPosition && old(reader.pos) <= |reader.data| ==>
        r.value == reader.data[old(reader.pos)..] && reader.pos == |reader.data|
      ensures IsClassic(version) && |reader.data| <= MaxPosition && old(reader.pos) <= |reader.data| ==> r.Success?
      ensures r.Success? && version == TR4 ==>
        BlockFits(reader.data, old(reader.pos)) && r.value == inflate(CompressedBlock(reader.data, old(reader.pos)))
      ensures r.Success? && !IsClassic(version) && version != TR4 ==>
        BlockFits(reader.data, old(reader.pos) + 32) && r.value == CompressedBlock(reader.data, old(reader.pos) + 32)
    {
      if IsClassic(version) {
        r := reader.ReadBytes(Int32(|reader.data| - reader.pos));
      } else if version == TR4 {
        var packed :- ReadCompressedBlock(reader);
        r := W.Success(inflate(packed));
      } else {
        reader.Skip(32);
        r := ReadCompressedBlock(reader);
      }
    }

    /**
     * The part of the file before the level data is parsed: the version
     * word, the texture tiles and the level-data bytes, which are returned.
     * For TR1-TR3 files within MaxPosition bytes, the reader is left at the
     * end of the file.
     */
    method ReadHeader(reader: Reader, fileName: string, versionOf: nat -> TrVersion, inflate: seq<byte> -> seq<byte>)
      returns (r: W.Result<seq<byte>, LoadError>)
      modifies reader`pos, this`version, this`textureMap
      ensures old(reader.pos) + 4 > |reader.data| ==> r.Failure? && version == old(version)
      ensures old(reader.pos) + 4 <= |reader.data| ==>
        version == EffectiveVersion(versionOf(U32At(reader.data, old(reader.pos))), fileName)
      ensures r.Success? && IsClassic(version) && |reader.data| <= MaxPosition ==> reader.pos >= |reader.data|
    {
      var header :- ReadVersion(reader, fileName, versionOf);
      var tiles :- ReadTextureTiles(reader, inflate);
      r := ReadLevelBytes(reader, inflate);
    }

    /**
     * The TR4/TR5 wave samples after the level data: a u32 count from the
     * file reader, then that many samples, appended to the sample list.
     */
    method ReadSamples(reader: Reader) returns (r: W.Result<(), LoadError>)
      modifies reader`pos, this`samples
      ensures r.Success? <==> (old(reader.pos) + 4 <= |reader.data| &&
        SamplesFrom(reader.data, old(reader.pos) + 4, U32At(reader.data, old(reader.pos))).Some?)
      ensures r.Success? ==>
        samples == old(samples) + SamplesFrom(reader.data, old(reader.pos) + 4, U32At(reader.data, old(reader.pos))).value
      ensures r.Success? ==> SamplesRead(reader.data, old(samples), samples)
    {
      ghost var start := reader.pos;
      ghost var before := samples;
      var numSamples :- reader.ReadField(UInt);
      assert numSamples == U32At(reader.data, start) && reader.pos == start + 4;
      r := ReadSampleList(reader, numSamples);
      if r.Success? {
        assert samples[|before|..] == SamplesFrom(reader.data, start + 4, numSamples).value;
      }
    }

    /** The loop over the samples: count blocks, each appended as it is read. */
    method ReadSampleList(reader: Reader, count: nat) returns (r: W.Result<(), LoadError>)
      modifies reader`pos, this`samples
      ensures r.Success? <==> SamplesFrom(reader.data, old(reader.pos), count).Some?
      ensures r.Success? ==> samples == old(samples) + SamplesFrom(reader.data, old(reader.pos), count).value
    {
      var blocks := ReadSampleBlocks(reader, count);
      if blocks.Failure? {
        return W.Failure(blocks.error);
      }
      samples := samples + blocks.value;
      r := W.Success(());
    }

    /** The count compressed blocks from the reader's position, in file order. */
    static method ReadSampleBlocks(reader: Reader, count: nat) returns (r: W.Result<seq<seq<byte>>, LoadError>)
      modifies reader`pos
      ensures r.Success? <==> SamplesFrom(reader.data, old(reader.pos), count).Some?
      ensures r.Success? ==> r.value == SamplesFrom(reader.data, old(reader.pos), count).value
    {
      ghost var all := SamplesFrom(reader.data, reader.pos, count);
      SamplesPendingStart(reader.data, reader.pos, count, []);
      var got: seq<seq<byte>> := [];
      var left := count;
      while left > 0
        invariant SamplesPending(reader.data, reader.pos, left, [], got, all)
      {
        var sample := ReadNextSample(reader, left, [], got, all);
        if sample.Failure? {
          return W.Failure(sample.error);
        }
        got := got + [sample.value];
        left := left - 1;
      }
      SamplesPendingDone(reader.data, reader.pos, [], got, all);
      assert [] + all.value == all.value;
      r := W.Success(got);
    }

    /** One pass of the sample loop: the next block, or the failure that leaves no list. */
    static method ReadNextSample(reader: Reader, left: nat, ghost before: seq<seq<byte>>, ghost now: seq<seq<byte>>, ghost all: W.Option<seq<seq<byte>>>)
      returns (r: W.Result<seq<byte>, LoadError>)
      requires left > 0 && SamplesPending(reader.data, reader.pos, left, before, now, all)
      modifies reader`pos
      ensures r.Failure? ==> all.None?
      ensures r.Success? ==> SamplesPending(reader.data, reader.pos, left - 1, before, now + [r.value], all)
    {
      ghost var p := reader.pos;
      r := ReadCompressedBlock(reader);
      if r.Failure? {
        SamplesPendingCut(reader.data, p, left, before, now, all);
      } else {
        SamplesPendingStep(reader.data, p, left, before, now, all, r.value, reader.pos);
      }
    }

    /**
     * What follows the header: the level data, parsed by a reader of its
     * own, then for TR4/TR5 the wave samples from the file reader.
     */
    method ReadLevelBody(outer: Reader, data: seq<byte>) returns (r: W.Result<(), LoadError>)
      modifies outer`pos, this`levelData, this`samples, this`meshes, this`meshPointers, this`animations
      modifies this`stateChanges, this`animDispatches, this`animCommands, this`meshTrees, this`frames
      modifies this`moveables, this`staticMeshes, this`objectTextures, this`spriteTextures
      modifies this`spriteSequences, this`soundMap, this`soundDetails, this`samplesIndices
      ensures levelData == data
      ensures (version == TR1 || version == TR2) && old(outer.pos) >= |outer.data| ==> r.Failure?
      ensures r.Success? && version == TR3 && old(outer.pos) >= |outer.data| ==> Roomless(data, 0)
      ensures r.Success? ==> HasMeshTable(version, meshes)
      ensures r.Success? && (version == TR4 || version == TR5) ==> SamplesRead(outer.data, old(samples), samples)
      ensures version != TR4 && version != TR5 ==> samples == old(samples)
    {
      levelData := data;
      var lev := new Reader(data);
      r := ReadLevelData(lev, outer);
      if r.Success? && (version == TR4 || version == TR5) {
        r := ReadSamples(outer);
      }
    }

    /**
     * Loads a level file: the version word, the texture tiles, the level
     * data (from the rest of the file, or a block), and then the level data
     * parsed by a reader of its own. The file's bytes, the version numbering
     * and the decompressor are parameters. A load returns true or fails.
     */
    method LoadLevel(fileName: string, file: seq<byte>, versionOf: nat -> TrVersion, inflate: seq<byte> -> seq<byte>)
      returns (r: W.Result<bool, LoadError>)
      modifies this
      ensures |file| < 4 ==> r.Failure? && version == old(version)
      ensures |file| >= 4 ==> version == EffectiveVersion(versionOf(U32At(file, 0)), fileName)
      ensures r.Success? ==> r.value
      ensures r.Success? && |file| <= MaxPosition ==> version != TR1 && version != TR2
      ensures r.Success? && version == TR3 && |file| <= MaxPosition ==> Roomless(levelData, 0)
      ensures r.Success? ==> HasMeshTable(version, meshes)
      ensures r.Success? && (version == TR4 || version == TR5) ==> SamplesRead(file, old(samples), samples)
      ensures version != TR4 && version != TR5 ==> samples == old(samples)
    {
      var outer := new Reader(file);
      var bytes := ReadHeader(outer, fileName, versionOf, inflate);
      if bytes.Success? {
        var parsed := ReadLevelBody(outer, bytes.value);
        if parsed.Failure? {
          return W.Failure(parsed.error);
        }
        r := W.Success(true);
      } else {
        r := W.Failure(bytes.error);
      }
    }
  }
}
