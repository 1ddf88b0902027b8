/**
 * The bookkeeping of the Tomb Engine level compiler: the dense index tables
 * it builds for cameras, sinks, flyby cameras, sound sources, items and AI
 * objects; the flyby ordering and its duplicate check; the sound-source play
 * flags; the walk that collects the rooms reachable from each room; the
 * descent through floor portals; and the split of moveables into items and
 * AI objects with the item-count warnings.
 *
 * Rooms are given by their index in the level's room list (a null entry is
 * `None`); an object instance is identified by its room and its slot in that
 * room's object list, which plays the part of the reference identity the
 * compiler's dictionaries use. Positions, angles and colours are computed in
 * floating point by the compiler and are not part of the model.
 */
module LevelCompilerTombEngine {
  import W = Wrappers
  import opened Versions
  import opened Bits
  import opened KeySort

  // ---------------------------------------------------------------------------
  // Level data

  datatype PlayMode = Automatic | Always | OnlyInBaseRoom | OnlyInAlternateRoom

  datatype PortalDirection = Floor | Ceiling | WallPositiveZ | WallNegativeZ | WallPositiveX | WallNegativeX

  datatype Portal = Portal(direction: PortalDirection, adjoiningRoom: nat)

  /** The object instances the compiler numbers, with the fields it reads from them. */
  datatype ObjectInstance =
    | Camera(fixed: bool)
    | Sink(strength: int)
    | FlybyCamera(sequence: int, number: int, timer: int, flags: int)
    | SoundSource(soundId: int, isEmpty: bool, playMode: PlayMode)
      /** `color` is the already packed 16-bit colour (0xFFFF for white). */
    | Moveable(typeId: nat, ocb: int, codeBits: nat, clearBody: bool, invisible: bool, color: nat)
    | OtherObject

  datatype Kind = CameraKind | SinkKind | FlybyKind | SoundKind | MoveableKind | OtherKind

  function KindOf(o: ObjectInstance): Kind {
    match o
    case Camera(_) => CameraKind
    case Sink(_) => SinkKind
    case FlybyCamera(_, _, _, _) => FlybyKind
    case SoundSource(_, _, _) => SoundKind
    case Moveable(_, _, _, _, _, _) => MoveableKind
    case OtherObject => OtherKind
  }

  /**
   * A room: its objects, its flip-map state, its portals, its position in
   * sectors, and the sectors whose floor is a full portal, each mapped to the
   * room below.
   */
  datatype Room = Room(
    objects: seq<ObjectInstance>,
    alternated: bool,
    isAlternate: bool,
    portals: seq<Portal>,
    positionX: int,
    positionZ: int,
    floorPortals: map<(int, int), nat>)

  type Rooms = seq<W.Option<Room>>

  /** An object instance: the index of its room and its slot in that room's objects. */
  datatype InstanceRef = InstanceRef(room: nat, slot: nat)

  predicate IsRoom(rooms: Rooms, r: nat) {
    r < |rooms| && rooms[r].Some?
  }

  /** Every portal and every floor portal leads to a room of the level. */
  ghost predicate ValidLevel(rooms: Rooms) {
    forall r: nat :: IsRoom(rooms, r) ==>
      (forall p :: p in rooms[r].value.portals ==> IsRoom(rooms, p.adjoiningRoom)) &&
      (forall c :: c in rooms[r].value.floorPortals ==> IsRoom(rooms, rooms[r].value.floorPortals[c]))
  }

  predicate IsInstance(rooms: Rooms, x: InstanceRef, kind: Kind) {
    IsRoom(rooms, x.room) && x.slot < |rooms[x.room].value.objects| &&
    KindOf(rooms[x.room].value.objects[x.slot]) == kind
  }

  function ObjectAt(rooms: Rooms, x: InstanceRef): ObjectInstance
    requires IsRoom(rooms, x.room) && x.slot < |rooms[x.room].value.objects|
  {
    rooms[x.room].value.objects[x.slot]
  }

  /** The order in which `foreach (room ...) foreach (obj in room.Objects...)` meets instances. */
  predicate Before(a: InstanceRef, b: InstanceRef) {
    a.room < b.room || (a.room == b.room && a.slot < b.slot)
  }

  predicate Distinct<T(==)>(s: seq<T>) {
    forall i, j :: 0 <= i < j < |s| ==> s[i] != s[j]
  }

  /** The instances of one kind among the first m objects of room i, in slot order. */
  function SlotRefs(rooms: Rooms, i: nat, kind: Kind, m: nat): (r: seq<InstanceRef>)
    requires IsRoom(rooms, i) && m <= |rooms[i].value.objects|
    ensures forall k :: 0 <= k < |r| ==> IsInstance(rooms, r[k], kind) && r[k].room == i && r[k].slot < m
    ensures forall j, k :: 0 <= j < k < |r| ==> r[j].slot < r[k].slot
    ensures forall s :: 0 <= s < m && KindOf(rooms[i].value.objects[s]) == kind ==> InstanceRef(i, s) in r
  {
    if m == 0 then []
    else
      SlotRefs(rooms, i, kind, m - 1) +
      (if KindOf(rooms[i].value.objects[m - 1]) == kind then [InstanceRef(i, m - 1)] else [])
  }

  /** The instances of one kind in the first n rooms, room by room, skipping null rooms. */
  function Refs(rooms: Rooms, kind: Kind, n: nat): (r: seq<InstanceRef>)
    requires n <= |rooms|
    ensures forall k :: 0 <= k < |r| ==> IsInstance(rooms, r[k], kind) && r[k].room < n
  {
    if n == 0 then []
    else
      Refs(rooms, kind, n - 1) +
      (if rooms[n - 1].Some? then SlotRefs(rooms, n - 1, kind, |rooms[n - 1].value.objects|) else [])
  }

  /** The instances come in iteration order: by room, then by slot. */
  lemma {:induction false} RefsOrdered(rooms: Rooms, kind: Kind, n: nat)
    requires n <= |rooms|
    ensures forall j, k :: 0 <= j < k < |Refs(rooms, kind, n)| ==> Before(Refs(rooms, kind, n)[j], Refs(rooms, kind, n)[k])
  {
    if n > 0 {
      RefsOrdered(rooms, kind, n - 1);
      var prefix := Refs(rooms, kind, n - 1);
      var here := if rooms[n - 1].Some? then SlotRefs(rooms, n - 1, kind, |rooms[n - 1].value.objects|) else [];
      assert Refs(rooms, kind, n) == prefix + here;
      assert forall j, k :: 0 <= j < |prefix| && 0 <= k < |here| ==> Before(prefix[j], here[k]);
    }
  }

  /** All instances of one kind in the level, in the compiler's iteration order. */
  function Instances(rooms: Rooms, kind: Kind): seq<InstanceRef> {
    Refs(rooms, kind, |rooms|)
  }

  lemma {:induction false} RefsComplete(rooms: Rooms, kind: Kind, n: nat, x: InstanceRef)
    requires n <= |rooms| && IsInstance(rooms, x, kind) && x.room < n
    ensures x in Refs(rooms, kind, n)
  {
    if x.room < n - 1 {
      RefsComplete(rooms, kind, n - 1, x);
    } else {
      assert x in SlotRefs(rooms, n - 1, kind, |rooms[n - 1].value.objects|);
    }
  }

  /** The instances of a kind are exactly the objects of that kind, each once. */
  lemma InstancesDistinct(rooms: Rooms, kind: Kind)
    ensures Distinct(Instances(rooms, kind))
  {
    RefsOrdered(rooms, kind, |rooms|);
  }

  lemma InstancesExactly(rooms: Rooms, kind: Kind)
    ensures Distinct(Instances(rooms, kind))
    ensures forall x :: x in Instances(rooms, kind) <==> IsInstance(rooms, x, kind)
  {
    InstancesDistinct(rooms, kind);
    forall x | IsInstance(rooms, x, kind)
      ensures x in Instances(rooms, kind)
    {
      RefsComplete(rooms, kind, |rooms|, x);
    }
  }

  // ---------------------------------------------------------------------------
  // Dense index tables

  /** The dictionary built by adding keys in order with the values base, base + 1, ... */
  function IndexMap(keys: seq<InstanceRef>, base: int): (m: map<InstanceRef, int>)
    ensures m.Keys == set x | x in keys
  {
    if keys == [] then map[]
    else IndexMap(keys[..|keys| - 1], base)[keys[|keys| - 1] := base + |keys| - 1]
  }

  /** With distinct keys, the k-th key is mapped to base + k. */
  lemma {:induction false} IndexMapDense(keys: seq<InstanceRef>, base: int)
    requires Distinct(keys)
    ensures forall k :: 0 <= k < |keys| ==> IndexMap(keys, base)[keys[k]] == base + k
  {
    if keys != [] {
      var init := keys[..|keys| - 1];
      IndexMapDense(init, base);
      forall k | 0 <= k < |keys|
        ensures IndexMap(keys, base)[keys[k]] == base + k
      {
        if k < |keys| - 1 {
          assert keys[k] == init[k] && keys[k] != keys[|keys| - 1];
        }
      }
    }
  }

  /** Adds each key to a fresh dictionary with a running counter starting at base. */
  method NumberInstances(keys: seq<InstanceRef>, base: int) returns (table: map<InstanceRef, int>, next: int)
    requires Distinct(keys)
    ensures table == IndexMap(keys, base) && next == base + |keys|
  {
    table, next := map[], base;
    for i := 0 to |keys|
      invariant table == IndexMap(keys[..i], base) && next == base + i
    {
      // Dictionary.Add throws on a key it already holds; the keys are distinct.
      assert keys[i] !in table by {
        assert forall j :: 0 <= j < i ==> keys[..i][j] == keys[j];
      }
      assert keys[..i + 1][..i] == keys[..i];
      table := table[keys[i] := next];
      next := next + 1;
    }
    assert keys[..|keys|] == keys;
  }

  // ---------------------------------------------------------------------------
  // Output records and warnings

  /** An entry of the camera list: a camera (room, fixed flag) or a sink (strength, box). */
  datatype CameraRecord = CameraRecord(source: InstanceRef, room: int, flags: int)

  datatype FlybyRecord = FlybyRecord(source: InstanceRef, room: int, sequence: nat, index: nat, timer: nat, flags: int)

  datatype SoundRecord = SoundRecord(source: InstanceRef, soundId: nat, flags: nat)

  datatype ItemRecord = ItemRecord(source: InstanceRef, objectId: nat, ocb: int, intensity: nat, flags: nat)

  datatype AiItemRecord = AiItemRecord(source: InstanceRef, objectId: nat, ocb: int, flags: nat)

  /** The warnings the compiler reports through its progress reporter. */
  datatype Warning =
    | MissingSound(source: InstanceRef)
    | MissingMoveable(source: InstanceRef)
    | DuplicateFlyby(sequence: int, index: int)
    | ItemLimitExceeded(limit: nat, trepHint: bool)
    | SafeItemLimitExceeded(limit: nat)

  /** The camera-list entry of a camera or of a sink. */
  function CameraListEntry(rooms: Rooms, x: InstanceRef, roomIndex: nat -> int, boxIndex: InstanceRef -> int): (r: CameraRecord)
    requires IsInstance(rooms, x, CameraKind) || IsInstance(rooms, x, SinkKind)
    ensures r.source == x
  {
    match ObjectAt(rooms, x)
    case Camera(fixed) => CameraRecord(x, roomIndex(x.room), if fixed then 1 else 0)
    case Sink(strength) => CameraRecord(x, strength, boxIndex(x))
  }

  function CameraRecords(rooms: Rooms, keys: seq<InstanceRef>, roomIndex: nat -> int, boxIndex: InstanceRef -> int): (r: seq<CameraRecord>)
    requires forall k :: 0 <= k < |keys| ==> IsInstance(rooms, keys[k], CameraKind) || IsInstance(rooms, keys[k], SinkKind)
    ensures |r| == |keys|
  {
    if keys == [] then []
    else CameraRecords(rooms, keys[..|keys| - 1], roomIndex, boxIndex) + [CameraListEntry(rooms, keys[|keys| - 1], roomIndex, boxIndex)]
  }

  /** The k-th entry of the camera list is the entry of the k-th key. */
  lemma {:induction false} CameraRecordsIndex(rooms: Rooms, keys: seq<InstanceRef>, roomIndex: nat -> int, boxIndex: InstanceRef -> int)
    requires forall k :: 0 <= k < |keys| ==> IsInstance(rooms, keys[k], CameraKind) || IsInstance(rooms, keys[k], SinkKind)
    ensures forall k :: 0 <= k < |keys| ==>
      CameraRecords(rooms, keys, roomIndex, boxIndex)[k] == CameraListEntry(rooms, keys[k], roomIndex, boxIndex)
  {
    if keys != [] {
      var init := keys[..|keys| - 1];
      CameraRecordsIndex(rooms, init, roomIndex, boxIndex);
      assert forall k :: 0 <= k < |init| ==> init[k] == keys[k];
    }
  }

  lemma CameraRecordsStep(rooms: Rooms, keys: seq<InstanceRef>, x: InstanceRef, roomIndex: nat -> int, boxIndex: InstanceRef -> int)
    requires forall k :: 0 <= k < |keys| ==> IsInstance(rooms, keys[k], CameraKind) || IsInstance(rooms, keys[k], SinkKind)
    requires IsInstance(rooms, x, CameraKind) || IsInstance(rooms, x, SinkKind)
    ensures CameraRecords(rooms, keys + [x], roomIndex, boxIndex) ==
      CameraRecords(rooms, keys, roomIndex, boxIndex) + [CameraListEntry(rooms, x, roomIndex, boxIndex)]
  {
    assert (keys + [x])[..|keys|] == keys;
  }

  /** The camera list of a concatenation is the concatenation of the camera lists. */
  lemma {:induction false} CameraRecordsConcat(rooms: Rooms, a: seq<InstanceRef>, b: seq<InstanceRef>, roomIndex: nat -> int, boxIndex: InstanceRef -> int)
    requires forall k :: 0 <= k < |a| ==> IsInstance(rooms, a[k], CameraKind) || IsInstance(rooms, a[k], SinkKind)
    requires forall k :: 0 <= k < |b| ==> IsInstance(rooms, b[k], CameraKind) || IsInstance(rooms, b[k], SinkKind)
    ensures CameraRecords(rooms, a + b, roomIndex, boxIndex) ==
      CameraRecords(rooms, a, roomIndex, boxIndex) + CameraRecords(rooms, b, roomIndex, boxIndex)
  {
    if b != [] {
      var b', x := b[..|b| - 1], b[|b| - 1];
      CameraRecordsConcat(rooms, a, b', roomIndex, boxIndex);
      ConcatSnoc(a, b);
      CameraRecordsStep(rooms, a + b', x, roomIndex, boxIndex);
    } else {
      assert a + b == a;
    }
  }

  /** One step of the camera loop. */
  lemma CamerasStep(rooms: Rooms, keys: seq<InstanceRef>, i: nat, roomIndex: nat -> int, boxIndex: InstanceRef -> int)
    requires i < |keys| && forall k :: 0 <= k < |keys| ==> IsInstance(rooms, keys[k], CameraKind)
    ensures CameraRecords(rooms, keys[..i + 1], roomIndex, boxIndex) ==
      CameraRecords(rooms, keys[..i], roomIndex, boxIndex) + [CameraRecord(keys[i], roomIndex(keys[i].room), if ObjectAt(rooms, keys[i]).fixed then 1 else 0)]
  {
    assert keys[..i + 1][..i] == keys[..i];
  }

  /** One step of the sink loop. */
  lemma SinksStep(rooms: Rooms, keys: seq<InstanceRef>, i: nat, roomIndex: nat -> int, boxIndex: InstanceRef -> int)
    requires i < |keys| && forall k :: 0 <= k < |keys| ==> IsInstance(rooms, keys[k], SinkKind)
    requires IsInstance(rooms, keys[i], SinkKind)
    ensures CameraRecords(rooms, keys[..i + 1], roomIndex, boxIndex) ==
      CameraRecords(rooms, keys[..i], roomIndex, boxIndex) + [CameraRecord(keys[i], ObjectAt(rooms, keys[i]).strength, boxIndex(keys[i]))]
  {
    assert keys[..i + 1][..i] == keys[..i];
  }

  lemma AppendAssoc<T>(a: seq<T>, b: seq<T>, e: T)
    ensures (a + b) + [e] == a + (b + [e])
  {
  }

  lemma ConcatSnoc<T>(a: seq<T>, b: seq<T>)
    requires b != []
    ensures a + b == (a + b[..|b| - 1]) + [b[|b| - 1]]
  {
    assert b == b[..|b| - 1] + [b[|b| - 1]];
  }

  lemma ConcatAssoc<T>(a: seq<T>, b: seq<T>, c: seq<T>)
    ensures (a + b) + c == a + (b + c)
  {
  }

  /** The flyby record of an instance; sequence and index are cast to bytes, the timer to an unsigned 16-bit value. */
  function FlybyRecordOf(rooms: Rooms, x: InstanceRef, roomIndex: nat -> int): (r: FlybyRecord)
    requires IsInstance(rooms, x, FlybyKind)
    ensures r.source == x && r.sequence < 0x100 && r.index < 0x100 && r.timer < 0x1_0000
  {
    var f := ObjectAt(rooms, x);
    FlybyRecord(x, roomIndex(x.room), f.sequence % 0x100, f.number % 0x100, f.timer % 0x1_0000, f.flags)
  }

  function FlybyRecords(rooms: Rooms, keys: seq<InstanceRef>, roomIndex: nat -> int): (r: seq<FlybyRecord>)
    requires forall k :: 0 <= k < |keys| ==> IsInstance(rooms, keys[k], FlybyKind)
    ensures |r| == |keys|
    ensures forall k :: 0 <= k < |keys| ==> r[k] == FlybyRecordOf(rooms, keys[k], roomIndex)
  {
    if keys == [] then []
    else FlybyRecords(rooms, keys[..|keys| - 1], roomIndex) + [FlybyRecordOf(rooms, keys[|keys| - 1], roomIndex)]
  }

  // ---------------------------------------------------------------------------
  // Flyby order and duplicates

  function FlybyKey(f: FlybyRecord): Key {
    (f.sequence, f.index)
  }

  /** ComparerFlyBy.Compare: the sign of the lexicographic comparison of (Sequence, Index). */
  function CompareFlyBy(x: FlybyRecord, y: FlybyRecord): (r: int)
    ensures -1 <= r <= 1
    ensures r == 0 <==> FlybyKey(x) == FlybyKey(y)
    ensures r < 0 <==> !KeyLe(FlybyKey(y), FlybyKey(x))
    ensures r > 0 <==> !KeyLe(FlybyKey(x), FlybyKey(y))
  {
    if x.sequence != y.sequence then (if x.sequence > y.sequence then 1 else -1)
    else if x.index == y.index then 0
    else if x.index > y.index then 1 else -1
  }

  /** The warnings of the duplicate check: one per camera whose key equals its predecessor's. */
  function DuplicateWarnings(s: seq<FlybyRecord>): (r: seq<Warning>)
    ensures |r| <= |s|
  {
    if |s| < 2 then []
    else
      DuplicateWarnings(s[..|s| - 1]) +
      (if FlybyKey(s[|s| - 2]) == FlybyKey(s[|s| - 1]) then [DuplicateFlyby(s[|s| - 1].sequence, s[|s| - 1].index)] else [])
  }

  lemma {:induction false} DuplicateWarningsAdjacent(s: seq<FlybyRecord>)
    ensures DuplicateWarnings(s) == [] <==> forall i :: 0 < i < |s| ==> FlybyKey(s[i - 1]) != FlybyKey(s[i])
  {
    if |s| >= 2 {
      var init := s[..|s| - 1];
      DuplicateWarningsAdjacent(init);
      assert forall i :: 0 <= i < |init| ==> init[i] == s[i];
    }
  }

  /** After the sort, the check warns exactly when two cameras share a (Sequence, Index) key. */
  lemma DuplicateWarningsOfSorted(s: seq<FlybyRecord>)
    requires SortedBy(s, FlybyKey)
    ensures DuplicateWarnings(s) == [] <==> forall i, j :: 0 <= i < j < |s| ==> FlybyKey(s[i]) != FlybyKey(s[j])
  {
    DuplicateWarningsAdjacent(s);
    if DuplicateWarnings(s) == [] {
      forall i, j | 0 <= i < j < |s|
        ensures FlybyKey(s[i]) != FlybyKey(s[j])
      {
        KeysIncrease(s, i, j);
      }
    }
  }

  /** In a sorted list whose neighbours have different keys, keys strictly increase. */
  lemma {:induction false} KeysIncrease(s: seq<FlybyRecord>, i: nat, j: nat)
    requires SortedBy(s, FlybyKey) && i < j < |s|
    requires forall k :: 0 < k < |s| ==> FlybyKey(s[k - 1]) != FlybyKey(s[k])
    ensures FlybyKey(s[i]) != FlybyKey(s[j])
    decreases j - i
  {
    if i + 1 < j {
      KeysIncrease(s, i + 1, j);
      assert KeyLe(FlybyKey(s[i]), FlybyKey(s[i + 1])) && FlybyKey(s[i]) != FlybyKey(s[i + 1]);
    }
  }

  // ---------------------------------------------------------------------------
  // Sound sources

  /** Flag 0x80 of a sound source: it plays while the base version of its room is shown. */
  predicate PlaysInBaseRoom(mode: PlayMode, room: Room) {
    mode == Always || mode == OnlyInBaseRoom || (mode == Automatic && !(room.alternated && room.isAlternate))
  }

  /** Flag 0x40 of a sound source: it plays while the alternate version of its room is shown. */
  predicate PlaysInAlternateRoom(mode: PlayMode, room: Room) {
    mode == Always || mode == OnlyInAlternateRoom || (mode == Automatic && !(room.alternated && !room.isAlternate))
  }

  function SoundFlags(mode: PlayMode, room: Room): (flags: nat)
    ensures flags == (if PlaysInBaseRoom(mode, room) then 0x80 else 0) + (if PlaysInAlternateRoom(mode, room) then 0x40 else 0)
    ensures flags != 0
  {
    match mode
    case Automatic => if room.alternated then (if room.isAlternate then 0x40 else 0x80) else 0xC0
    case Always => 0xC0
    case OnlyInBaseRoom => 0x80
    case OnlyInAlternateRoom => 0x40
  }

  /** A sound source that yields a record: not empty, and its sound is known to the wads. */
  predicate Exported(rooms: Rooms, known: set<int>, x: InstanceRef) {
    IsInstance(rooms, x, SoundKind) && !ObjectAt(rooms, x).isEmpty && ObjectAt(rooms, x).soundId in known
  }

  /** A sound source whose sound is not known to the wads: it yields a warning instead of a record. */
  predicate SoundMissing(rooms: Rooms, known: set<int>, x: InstanceRef) {
    IsInstance(rooms, x, SoundKind) && !ObjectAt(rooms, x).isEmpty && ObjectAt(rooms, x).soundId !in known
  }

  function SoundRecordOf(rooms: Rooms, x: InstanceRef): (r: SoundRecord)
    requires IsInstance(rooms, x, SoundKind)
    ensures r.source == x && r.soundId < 0x1_0000 && r.flags != 0
  {
    var source := ObjectAt(rooms, x);
    SoundRecord(x, source.soundId % 0x1_0000, SoundFlags(source.playMode, rooms[x.room].value))
  }

  /** The records of the exported sources among keys, in order. */
  function SoundRecords(rooms: Rooms, known: set<int>, keys: seq<InstanceRef>): (r: seq<SoundRecord>)
    ensures |r| <= |keys|
  {
    if keys == [] then []
    else
      var x := keys[|keys| - 1];
      SoundRecords(rooms, known, keys[..|keys| - 1]) + (if Exported(rooms, known, x) then [SoundRecordOf(rooms, x)] else [])
  }

  /** The missing-sound warnings of the sources among keys, in order. */
  function SoundWarnings(rooms: Rooms, known: set<int>, keys: seq<InstanceRef>): (r: seq<Warning>)
    ensures |r| <= |keys|
  {
    if keys == [] then []
    else
      var x := keys[|keys| - 1];
      SoundWarnings(rooms, known, keys[..|keys| - 1]) + (if SoundMissing(rooms, known, x) then [MissingSound(x)] else [])
  }

  /** Every record comes from an exported source of keys, and every warning from a source of keys whose sound is missing. */
  lemma {:induction false} SoundOutputsFromKeys(rooms: Rooms, known: set<int>, keys: seq<InstanceRef>)
    ensures forall rec :: rec in SoundRecords(rooms, known, keys) ==>
      rec.source in keys && Exported(rooms, known, rec.source) && rec == SoundRecordOf(rooms, rec.source)
    ensures forall w :: w in SoundWarnings(rooms, known, keys) ==>
      w.MissingSound? && w.source in keys && SoundMissing(rooms, known, w.source)
  {
    if keys != [] {
      SoundOutputsFromKeys(rooms, known, keys[..|keys| - 1]);
      assert forall y :: y in keys[..|keys| - 1] ==> y in keys;
    }
  }

  /** One step of the sound-source loop. */
  lemma SoundStep(rooms: Rooms, known: set<int>, keys: seq<InstanceRef>, i: nat)
    requires i < |keys|
    ensures SoundRecords(rooms, known, keys[..i + 1]) ==
      SoundRecords(rooms, known, keys[..i]) + (if Exported(rooms, known, keys[i]) then [SoundRecordOf(rooms, keys[i])] else [])
    ensures SoundWarnings(rooms, known, keys[..i + 1]) ==
      SoundWarnings(rooms, known, keys[..i]) + (if SoundMissing(rooms, known, keys[i]) then [MissingSound(keys[i])] else [])
  {
    assert keys[..i + 1][..i] == keys[..i];
  }

  lemma {:induction false} SoundRecordsComplete(rooms: Rooms, known: set<int>, keys: seq<InstanceRef>, x: InstanceRef)
    requires x in keys && Exported(rooms, known, x)
    ensures SoundRecordOf(rooms, x) in SoundRecords(rooms, known, keys)
    ensures !(MissingSound(x) in SoundWarnings(rooms, known, keys))
  {
    SoundOutputsFromKeys(rooms, known, keys);
    if x != keys[|keys| - 1] {
      SoundRecordsComplete(rooms, known, keys[..|keys| - 1], x);
    }
  }

  lemma {:induction false} SoundWarningsComplete(rooms: Rooms, known: set<int>, keys: seq<InstanceRef>, x: InstanceRef)
    requires x in keys && SoundMissing(rooms, known, x)
    ensures MissingSound(x) in SoundWarnings(rooms, known, keys)
  {
    if x != keys[|keys| - 1] {
      SoundWarningsComplete(rooms, known, keys[..|keys| - 1], x);
    }
  }

  /**
   * Over all sound sources of the level: a source has a record exactly when it
   * is not empty and its sound is known, and a missing-sound warning exactly
   * when it is not empty and its sound is unknown.
   */
  lemma SoundSourcesExactly(rooms: Rooms, known: set<int>, x: InstanceRef)
    ensures SoundRecordOf.requires(rooms, x) ==>
      (SoundRecordOf(rooms, x) in SoundRecords(rooms, known, Instances(rooms, SoundKind)) <==> Exported(rooms, known, x))
    ensures MissingSound(x) in SoundWarnings(rooms, known, Instances(rooms, SoundKind)) <==> SoundMissing(rooms, known, x)
  {
    var keys := Instances(rooms, SoundKind);
    InstancesExactly(rooms, SoundKind);
    SoundOutputsFromKeys(rooms, known, keys);
    if Exported(rooms, known, x) {
      SoundRecordsComplete(rooms, known, keys, x);
    }
    if SoundMissing(rooms, known, x) {
      SoundWarningsComplete(rooms, known, keys, x);
    }
  }

  // ---------------------------------------------------------------------------
  // Items and AI objects

  /** unchecked((short)v): the low 16 bits read as a two's-complement value. */
  function ToShort(v: int): (r: int)
    ensures -0x8000 <= r < 0x8000 && (r - v) % 0x1_0000 == 0
  {
    var u := v % 0x1_0000;
    if u >= 0x8000 then u - 0x1_0000 else u
  }

  /** (ushort)((CodeBits << 9) | (ClearBody ? 0x80 : 0) | (Invisible ? 0x100 : 0)). */
  function ItemFlags(codeBits: nat, clearBody: bool, invisible: bool): (flags: nat)
    ensures flags < 0x1_0000
  {
    BitOr(BitOr(codeBits * 0x200, if clearBody then 0x80 else 0), if invisible then 0x100 else 0) % 0x1_0000
  }

  /** The three fields occupy disjoint bits: for code bits that fit in the word, the OR is their sum. */
  lemma ItemFlagsFields(codeBits: nat, clearBody: bool, invisible: bool)
    requires codeBits < 0x80
    ensures ItemFlags(codeBits, clearBody, invisible) ==
      codeBits * 0x200 + (if invisible then 0x100 else 0) + (if clearBody then 0x80 else 0)
  {
    var c, i := if clearBody then 0x80 else 0, if invisible then 0x100 else 0;
    FlagBitsSum(codeBits, c, i);
    FlagsFitWord(codeBits, c, i);
  }

  lemma FlagsFitWord(codeBits: nat, c: nat, i: nat)
    requires codeBits < 0x80 && c <= 0x80 && i <= 0x100
    ensures (codeBits * 0x200 + i + c) % 0x1_0000 == codeBits * 0x200 + i + c
  {
    assert codeBits * 0x200 <= 0x7F * 0x200;
  }

  lemma FlagBitsSum(codeBits: nat, c: nat, i: nat)
    requires (c == 0 || c == 0x80) && (i == 0 || i == 0x100)
    ensures BitOr(BitOr(codeBits * 0x200, c), i) == codeBits * 0x200 + i + c
  {
    ClearBodyBit(codeBits, c);
    if i != 0 {
      InvisibleBit(codeBits, c);
    }
  }

  lemma ClearBodyBit(codeBits: nat, c: nat)
    requires c == 0 || c == 0x80
    ensures BitOr(codeBits * 0x200, c) == codeBits * 0x200 + c
  {
    if c != 0 {
      Pow2Byte();
      assert Pow2(9) == 0x200;
      BitOrCommutes(codeBits * 0x200, 0x80);
      BitOrDisjoint(0x80, codeBits, 9);
    }
  }

  lemma InvisibleBit(codeBits: nat, c: nat)
    requires c < 0x100
    ensures BitOr(codeBits * 0x200 + c, 0x100) == codeBits * 0x200 + 0x100 + c
  {
    Pow2Byte();
    var e := 2 * codeBits;
    assert codeBits * 0x200 + c == c + e * Pow2(8) && 0x100 == 1 * Pow2(8);
    BitOrShift(c, e, 1, 8);
    assert BitOr(e, 1) == e + 1 by {
      BitOrCommutes(e, 1);
      assert Pow2(1) == 2;
      BitOrDisjoint(1, codeBits, 1);
    }
    assert (e + 1) * Pow2(8) == codeBits * 0x200 + 0x100;
  }

  /** What PrepareItems reads from the level settings, the loaded wads and the catalog. */
  datatype ItemSettings = ItemSettings(
    order: VersionOrder,
    version: Game,
    wadMoveables: set<nat>,
    isAI: nat -> bool,
    substituteId: nat -> nat)

  /** GameVersion > TR3. */
  predicate IsNewTR(s: ItemSettings) {
    Above(s.order, s.version, TR3)
  }

  /** The lists and tables PrepareItems fills, and the warnings log. */
  datatype ItemTables = ItemTables(
    items: seq<ItemRecord>,
    aiItems: seq<AiItemRecord>,
    moveablesTable: map<InstanceRef, int>,
    aiObjectsTable: map<InstanceRef, int>,
    warnings: seq<Warning>)

  /** The moveable's wad entry exists and it goes to the AI list. */
  predicate GoesToAI(s: ItemSettings, rooms: Rooms, x: InstanceRef)
    requires IsInstance(rooms, x, MoveableKind)
  {
    ObjectAt(rooms, x).typeId in s.wadMoveables && IsNewTR(s) && s.isAI(ObjectAt(rooms, x).typeId)
  }

  /** The moveable's wad entry exists and it goes to the item list. */
  predicate GoesToItems(s: ItemSettings, rooms: Rooms, x: InstanceRef)
    requires IsInstance(rooms, x, MoveableKind)
  {
    ObjectAt(rooms, x).typeId in s.wadMoveables && !(IsNewTR(s) && s.isAI(ObjectAt(rooms, x).typeId))
  }

  /** One iteration of the moveable loop; None when a checked cast to ushort throws. */
  function PlaceMoveable(s: ItemSettings, rooms: Rooms, t: ItemTables, x: InstanceRef): W.Option<ItemTables>
    requires IsInstance(rooms, x, MoveableKind)
  {
    var m := ObjectAt(rooms, x);
    if m.typeId !in s.wadMoveables then
      W.Some(t.(warnings := t.warnings + [MissingMoveable(x)]))
    else if IsNewTR(s) && s.isAI(m.typeId) then
      if m.typeId > 0xFFFF then W.None
      else
        var ai := AiItemRecord(x, m.typeId, m.ocb, (m.codeBits * 2) % 0x1_0000);
        W.Some(t.(aiItems := t.aiItems + [ai], aiObjectsTable := t.aiObjectsTable[x := |t.aiObjectsTable|]))
    else
      var realId := s.substituteId(m.typeId);
      if realId > 0xFFFF then W.None
      else
        var ocb := if IsNewTR(s) then m.ocb else ToShort(m.color);
        var item := ItemRecord(x, realId, ocb, m.color, ItemFlags(m.codeBits, m.clearBody, m.invisible));
        W.Some(t.(items := t.items + [item], moveablesTable := t.moveablesTable[x := |t.moveablesTable|]))
  }

  /** The moveable loop over the given instances, from the tables in start. */
  function SplitMoveables(s: ItemSettings, rooms: Rooms, start: ItemTables, keys: seq<InstanceRef>): (r: W.Option<ItemTables>)
    requires forall k :: 0 <= k < |keys| ==> IsInstance(rooms, keys[k], MoveableKind)
    ensures r.Some? ==> start.warnings <= r.value.warnings
  {
    if keys == [] then W.Some(start)
    else
      match SplitMoveables(s, rooms, start, keys[..|keys| - 1])
      case None => W.None
      case Some(t) => PlaceMoveable(s, rooms, t, keys[|keys| - 1])
  }

  lemma {:induction false} SplitMoveablesStaysNone(s: ItemSettings, rooms: Rooms, start: ItemTables, keys: seq<InstanceRef>, n: nat)
    requires forall k :: 0 <= k < |keys| ==> IsInstance(rooms, keys[k], MoveableKind)
    requires n <= |keys| && SplitMoveables(s, rooms, start, keys[..n]).None?
    ensures SplitMoveables(s, rooms, start, keys).None?
    decreases |keys| - n
  {
    if n < |keys| {
      assert keys[..n + 1][..n] == keys[..n];
      SplitMoveablesStaysNone(s, rooms, start, keys, n + 1);
    } else {
      assert keys[..n] == keys;
    }
  }

  /** A table whose entries number the sources of a list's records densely: entry x holds x's position. */
  predicate DenseTable(table: map<InstanceRef, int>, sources: seq<InstanceRef>) {
    |table| == |sources| &&
    (forall x :: x in table ==> 0 <= table[x] < |sources| && sources[table[x]] == x) &&
    (forall k :: 0 <= k < |sources| ==> sources[k] in table)
  }

  /** The instance each record of a list was built from, in list order. */
  function Sources<R>(records: seq<R>, sourceOf: R -> InstanceRef): (r: seq<InstanceRef>)
    ensures |r| == |records| && forall k :: 0 <= k < |records| ==> r[k] == sourceOf(records[k])
  {
    if records == [] then [] else Sources(records[..|records| - 1], sourceOf) + [sourceOf(records[|records| - 1])]
  }

  const ItemSource: ItemRecord -> InstanceRef := (item: ItemRecord) => item.source

  const AiSource: AiItemRecord -> InstanceRef := (item: AiItemRecord) => item.source

  /** Starting from empty lists and tables. */
  predicate FreshTables(t: ItemTables) {
    t.items == [] && t.aiItems == [] && t.moveablesTable == map[] && t.aiObjectsTable == map[]
  }

  lemma DenseTableAppend(table: map<InstanceRef, int>, sources: seq<InstanceRef>, x: InstanceRef)
    requires DenseTable(table, sources) && x !in table
    ensures DenseTable(table[x := |table|], sources + [x])
  {
    var sources' := sources + [x];
    forall k | 0 <= k < |sources'|
      ensures sources'[k] in table[x := |table|]
    {
      if k < |sources| {
        assert sources'[k] == sources[k];
      }
    }
  }

  /** The last iteration of the moveable loop runs on the tables the earlier ones left. */
  lemma SplitMoveablesLast(s: ItemSettings, rooms: Rooms, start: ItemTables, keys: seq<InstanceRef>)
    requires forall k :: 0 <= k < |keys| ==> IsInstance(rooms, keys[k], MoveableKind)
    requires keys != [] && SplitMoveables(s, rooms, start, keys).Some?
    ensures SplitMoveables(s, rooms, start, keys[..|keys| - 1]).Some?
    ensures SplitMoveables(s, rooms, start, keys) ==
      PlaceMoveable(s, rooms, SplitMoveables(s, rooms, start, keys[..|keys| - 1]).value, keys[|keys| - 1])
  {
  }

  /** What one placed moveable adds: an item and its table entry, an AI object and its table entry, or a warning. */
  lemma PlaceMoveableEffect(s: ItemSettings, rooms: Rooms, t: ItemTables, x: InstanceRef)
    requires IsInstance(rooms, x, MoveableKind) && PlaceMoveable(s, rooms, t, x).Some?
    ensures var t' := PlaceMoveable(s, rooms, t, x).value;
      if GoesToItems(s, rooms, x) then
        t'.moveablesTable == t.moveablesTable[x := |t.moveablesTable|] && Sources(t'.items, ItemSource) == Sources(t.items, ItemSource) + [x]
      else t'.moveablesTable == t.moveablesTable && t'.items == t.items
    ensures var t' := PlaceMoveable(s, rooms, t, x).value;
      if GoesToAI(s, rooms, x) then
        t'.aiObjectsTable == t.aiObjectsTable[x := |t.aiObjectsTable|] && Sources(t'.aiItems, AiSource) == Sources(t.aiItems, AiSource) + [x]
      else t'.aiObjectsTable == t.aiObjectsTable && t'.aiItems == t.aiItems
    ensures PlaceMoveable(s, rooms, t, x).value.warnings ==
      t.warnings + if ObjectAt(rooms, x).typeId in s.wadMoveables then [] else [MissingMoveable(x)]
  {
    var t' := PlaceMoveable(s, rooms, t, x).value;
    if GoesToItems(s, rooms, x) {
      assert Sources(t'.items, ItemSource) == Sources(t.items, ItemSource) + [x];
    }
    if GoesToAI(s, rooms, x) {
      assert Sources(t'.aiItems, AiSource) == Sources(t.aiItems, AiSource) + [x];
    }
  }

  /**
   * Each moveable whose wad entry exists and that is not an AI object above
   * TR3 lands in the item list, and only those; the moveables table numbers
   * the item list densely.
   */
  lemma {:induction false} SplitMoveablesItems(s: ItemSettings, rooms: Rooms, start: ItemTables, keys: seq<InstanceRef>)
    requires forall k :: 0 <= k < |keys| ==> IsInstance(rooms, keys[k], MoveableKind)
    requires Distinct(keys) && FreshTables(start)
    requires SplitMoveables(s, rooms, start, keys).Some?
    ensures var t := SplitMoveables(s, rooms, start, keys).value;
      DenseTable(t.moveablesTable, Sources(t.items, ItemSource)) &&
      forall x :: x in t.moveablesTable <==> x in keys && GoesToItems(s, rooms, x)
  {
    if keys != [] {
      var init, x := keys[..|keys| - 1], keys[|keys| - 1];
      assert Distinct(init);
      SplitMoveablesLast(s, rooms, start, keys);
      SplitMoveablesItems(s, rooms, start, init);
      var t0 := SplitMoveables(s, rooms, start, init).value;
      PlaceMoveableEffect(s, rooms, t0, x);
      assert x !in init;
      assert forall y :: y in keys <==> y in init || y == x;
      if GoesToItems(s, rooms, x) {
        DenseTableAppend(t0.moveablesTable, Sources(t0.items, ItemSource), x);
      }
    }
  }

  /**
   * Each moveable whose wad entry exists, above TR3 and marked as AI by the
   * catalog, lands in the AI list, and only those; the AI table numbers the
   * AI list (before its sort) densely.
   */
  lemma {:induction false} SplitMoveablesAi(s: ItemSettings, rooms: Rooms, start: ItemTables, keys: seq<InstanceRef>)
    requires forall k :: 0 <= k < |keys| ==> IsInstance(rooms, keys[k], MoveableKind)
    requires Distinct(keys) && FreshTables(start)
    requires SplitMoveables(s, rooms, start, keys).Some?
    ensures var t := SplitMoveables(s, rooms, start, keys).value;
      DenseTable(t.aiObjectsTable, Sources(t.aiItems, AiSource)) &&
      forall x :: x in t.aiObjectsTable <==> x in keys && GoesToAI(s, rooms, x)
  {
    if keys != [] {
      var init, x := keys[..|keys| - 1], keys[|keys| - 1];
      assert Distinct(init);
      SplitMoveablesLast(s, rooms, start, keys);
      SplitMoveablesAi(s, rooms, start, init);
      var t0 := SplitMoveables(s, rooms, start, init).value;
      PlaceMoveableEffect(s, rooms, t0, x);
      assert x !in init;
      assert forall y :: y in keys <==> y in init || y == x;
      if GoesToAI(s, rooms, x) {
        DenseTableAppend(t0.aiObjectsTable, Sources(t0.aiItems, AiSource), x);
      }
    }
  }

  /** A moveable is reported as missing exactly when its wad entry does not exist. */
  lemma {:induction false} SplitMoveablesWarnings(s: ItemSettings, rooms: Rooms, start: ItemTables, keys: seq<InstanceRef>)
    requires forall k :: 0 <= k < |keys| ==> IsInstance(rooms, keys[k], MoveableKind)
    requires Distinct(keys)
    requires SplitMoveables(s, rooms, start, keys).Some?
    ensures var t := SplitMoveables(s, rooms, start, keys).value;
      (forall w :: w in t.warnings[|start.warnings|..] ==> w.MissingMoveable? && w.source in keys) &&
      (forall x :: x in keys ==> (MissingMoveable(x) in t.warnings[|start.warnings|..] <==> ObjectAt(rooms, x).typeId !in s.wadMoveables))
  {
    if keys != [] {
      var init, x := keys[..|keys| - 1], keys[|keys| - 1];
      assert Distinct(init);
      SplitMoveablesLast(s, rooms, start, keys);
      SplitMoveablesWarnings(s, rooms, start, init);
      var t0 := SplitMoveables(s, rooms, start, init).value;
      PlaceMoveableEffect(s, rooms, t0, x);
      var t := SplitMoveables(s, rooms, start, keys).value;
      var n := |start.warnings|;
      assert t.warnings[n..] == t0.warnings[n..] + t.warnings[|t0.warnings|..];
      assert x !in init;
      assert forall y :: y in keys <==> y in init || y == x;
    }
  }

  /** The key of OrderByDescending(ObjectID).ThenBy(OCB) as an ascending key. */
  function AiKey(a: AiItemRecord): Key {
    (-(a.objectId as int), a.ocb)
  }

  /** The AI sort orders by descending ObjectID, then ascending OCB, keeps every item, and is stable. */
  lemma AiItemsOrder(t: seq<AiItemRecord>)
    ensures var r := SortByKey(t, AiKey);
      multiset(r) == multiset(t) &&
      (forall i, j :: 0 <= i < j < |r| ==>
        r[i].objectId > r[j].objectId || (r[i].objectId == r[j].objectId && r[i].ocb <= r[j].ocb)) &&
      (forall k :: WithKey(r, AiKey, k) == WithKey(t, AiKey, k))
  {
    var r := SortByKey(t, AiKey);
    SortByKeyIsSorted(t, AiKey);
    forall i, j | 0 <= i < j < |r|
      ensures r[i].objectId > r[j].objectId || (r[i].objectId == r[j].objectId && r[i].ocb <= r[j].ocb)
    {
      assert KeyLe(AiKey(r[i]), AiKey(r[j]));
    }
    forall k {
      SortByKeyIsStable(t, AiKey, k);
    }
  }

  /**
   * The whole of PrepareItems from the lists and tables in start: the moveable
   * loop, then the AI sort above TR3, then the item-count warnings.
   */
  function PreparedItems(s: ItemSettings, rooms: Rooms, start: ItemTables): W.Option<ItemTables> {
    match SplitMoveables(s, rooms, start, Instances(rooms, MoveableKind))
    case None => W.None
    case Some(t) =>
      W.Some(t.(aiItems := if IsNewTR(s) then SortByKey(t.aiItems, AiKey) else t.aiItems,
                warnings := t.warnings + LimitWarnings(s.version, |t.items|)))
  }

  /** (maxItemCount, maxSafeItemCount) for a target engine. */
  function ItemLimits(version: Game): (limits: (nat, nat))
    ensures limits.1 <= limits.0
  {
    match version
    case TRNG => (1023, 255)
    case TombEngine => (32767, 1023)
    case _ => (255, 255)
  }

  /** The item-count warnings: over the hard limit (with the TREP hint for TR4), then over the safe limit. */
  function LimitWarnings(version: Game, count: nat): (r: seq<Warning>)
    ensures ItemLimitExceeded(ItemLimits(version).0, version == TR4) in r <==> count > ItemLimits(version).0
    ensures SafeItemLimitExceeded(ItemLimits(version).1) in r <==> count > ItemLimits(version).1
    ensures r == [] <==> count <= ItemLimits(version).1
    ensures |r| <= 2
  {
    var (maxItems, maxSafe) := ItemLimits(version);
    (if count > maxItems then [ItemLimitExceeded(maxItems, version == TR4)] else []) +
    (if count > maxSafe then [SafeItemLimitExceeded(maxSafe)] else [])
  }

  // ---------------------------------------------------------------------------
  // Reachable rooms

  ghost function RoomSet(rooms: Rooms): set<nat> {
    set r: nat | r < |rooms| && rooms[r].Some?
  }

  ghost function Elements(list: seq<nat>): set<nat> {
    set x | x in list
  }

  /** A list of distinct rooms of the level. */
  ghost predicate RoomList(rooms: Rooms, list: seq<nat>) {
    Distinct(list) && forall x :: x in list ==> IsRoom(rooms, x)
  }

  /** Floor and ceiling portals; every other direction is a wall portal. */
  predicate IsVertical(d: PortalDirection) {
    d == Floor || d == Ceiling
  }

  /** The direction the walk never follows: floors on the way up, ceilings on the way down. */
  function Opposite(vertical: PortalDirection): PortalDirection {
    if vertical == Ceiling then Floor else Ceiling
  }

  lemma PrefixElements(a: seq<nat>, b: seq<nat>)
    requires a <= b
    ensures forall x :: x in a ==> x in b
  {
    forall x | x in a
      ensures x in b
    {
      var k :| 0 <= k < |a| && a[k] == x;
      assert b[k] == x;
    }
  }

  /** Every portal of room r that is not of the given direction leads to a room of the list. */
  ghost predicate Covers(rooms: Rooms, r: nat, skipped: PortalDirection, list: seq<nat>)
    requires IsRoom(rooms, r)
  {
    forall p :: p in rooms[r].value.portals && p.direction != skipped ==> p.adjoiningRoom in list
  }

  /** Room b is behind a portal of direction v of room a. */
  ghost predicate PortalStep(rooms: Rooms, v: PortalDirection, a: nat, b: nat) {
    IsRoom(rooms, a) && exists p :: p in rooms[a].value.portals && p.direction == v && p.adjoiningRoom == b
  }

  /**
   * path is a nonempty chain of portals of direction v from room c: its first
   * room is behind a v-portal of c, the rest is a chain from that room, and
   * none of its rooms is in avoid.
   */
  ghost predicate IsChain(rooms: Rooms, v: PortalDirection, c: nat, avoid: set<nat>, path: seq<nat>)
    decreases |path|
  {
    |path| > 0 && path[0] !in avoid && PortalStep(rooms, v, c, path[0]) &&
    (|path| > 1 ==> IsChain(rooms, v, path[0], avoid, path[1..]))
  }

  /** Some chain of v-portals from c that avoids the rooms of avoid ends in x. */
  ghost predicate Reaches(rooms: Rooms, v: PortalDirection, c: nat, avoid: set<nat>, x: nat) {
    exists path :: IsChain(rooms, v, c, avoid, path) && path[|path| - 1] == x
  }

  /** The rooms at the end of a chain of v-portals from c that avoids the rooms of avoid. */
  ghost function ReachSet(rooms: Rooms, v: PortalDirection, c: nat, avoid: set<nat>): set<nat> {
    set x: nat | x < |rooms| && Reaches(rooms, v, c, avoid, x)
  }

  /** x is behind a wall portal of a room of entered. */
  ghost predicate WallTargetOf(rooms: Rooms, entered: set<nat>, x: nat) {
    exists e :: e in entered && IsRoom(rooms, e) &&
      exists p :: p in rooms[e].value.portals && !IsVertical(p.direction) && p.adjoiningRoom == x
  }

  /** No room of the level has a wall portal. */
  ghost predicate NoWallPortals(rooms: Rooms) {
    forall r: nat, p :: IsRoom(rooms, r) && p in rooms[r].value.portals ==> IsVertical(p.direction)
  }

  /** Every room of entered is a room whose portals, except those of direction Opposite(v), lead into list. */
  ghost predicate CoveredAll(rooms: Rooms, v: PortalDirection, entered: set<nat>, list: seq<nat>) {
    forall e :: e in entered ==> IsRoom(rooms, e) && Covers(rooms, e, Opposite(v), list)
  }

  /**
   * Where the rooms a walk in direction v from room c added to a list that was
   * start come from: the entered rooms are c and rooms the walk added, and
   * every added room is an entered room at the end of a v-chain from c that
   * avoids start, or a room behind a wall portal of an entered room.
   */
  ghost predicate Traced(rooms: Rooms, v: PortalDirection, c: nat, start: seq<nat>, list: seq<nat>, entered: set<nat>) {
    (forall e :: e in entered ==> e == c || (e in list && e !in start)) &&
    (forall x :: x in list && x !in start ==>
      (x in entered && Reaches(rooms, v, c, Elements(start), x)) || WallTargetOf(rooms, entered, x))
  }

  /**
   * A walk in direction v from room c took the list from start to list,
   * entering the rooms of entered (c among them): the list only grew, every
   * entered room has all its portals except those of the opposite vertical
   * direction listed, and every added room is traced back to c.
   */
  ghost predicate Walked(rooms: Rooms, v: PortalDirection, c: nat, start: seq<nat>, list: seq<nat>, entered: set<nat>) {
    c in entered && start <= list && CoveredAll(rooms, v, entered, list) && Traced(rooms, v, c, start, list, entered)
  }

  /**
   * What GetAllReachableRooms leaves for a base room r: the upward walk from r
   * on an empty list, then the downward walk from r on the list it left.
   */
  ghost predicate Reached(rooms: Rooms, r: nat, list: seq<nat>)
    requires ValidLevel(rooms) && IsRoom(rooms, r)
  {
    list == Walk(rooms, Floor, r, Walk(rooms, Ceiling, r, []))
  }

  /** A portal of direction v from c into a room outside avoid is a chain of one. */
  lemma ReachesStep(rooms: Rooms, v: PortalDirection, c: nat, avoid: set<nat>, t: nat)
    requires PortalStep(rooms, v, c, t) && t !in avoid
    ensures Reaches(rooms, v, c, avoid, t)
  {
    assert IsChain(rooms, v, c, avoid, [t]);
  }

  /** A chain that avoids some rooms avoids any fewer of them. */
  lemma {:induction false} ChainAvoidsFewer(rooms: Rooms, v: PortalDirection, c: nat, a: set<nat>, b: set<nat>, path: seq<nat>)
    requires IsChain(rooms, v, c, b, path) && a <= b
    ensures IsChain(rooms, v, c, a, path)
    decreases |path|
  {
    if |path| > 1 {
      ChainAvoidsFewer(rooms, v, path[0], a, b, path[1..]);
    }
  }

  /** A chain from c ending in t followed by a chain from t that avoids more rooms is a chain from c. */
  lemma {:induction false} ChainsJoin(rooms: Rooms, v: PortalDirection, c: nat, a: set<nat>, p1: seq<nat>, b: set<nat>, p2: seq<nat>)
    requires IsChain(rooms, v, c, a, p1) && IsChain(rooms, v, p1[|p1| - 1], b, p2) && a <= b
    ensures IsChain(rooms, v, c, a, p1 + p2)
    decreases |p1|
  {
    if |p1| == 1 {
      ChainAvoidsFewer(rooms, v, p1[0], a, b, p2);
      assert (p1 + p2)[1..] == p2;
    } else {
      ChainsJoin(rooms, v, p1[0], a, p1[1..], b, p2);
      assert (p1 + p2)[1..] == p1[1..] + p2;
    }
  }

  /** A chain from c to t followed by a chain from t that avoids more rooms reaches on from c. */
  lemma ReachesJoin(rooms: Rooms, v: PortalDirection, c: nat, a: set<nat>, t: nat, b: set<nat>, x: nat)
    requires Reaches(rooms, v, c, a, t) && Reaches(rooms, v, t, b, x) && a <= b
    ensures Reaches(rooms, v, c, a, x)
  {
    var p1 :| IsChain(rooms, v, c, a, p1) && p1[|p1| - 1] == t;
    var p2 :| IsChain(rooms, v, t, b, p2) && p2[|p2| - 1] == x;
    ChainsJoin(rooms, v, c, a, p1, b, p2);
    assert (p1 + p2)[|p1 + p2| - 1] == x;
  }

  /** A longer list covers whatever a shorter one did. */
  lemma CoveredGrows(rooms: Rooms, v: PortalDirection, entered: set<nat>, a: seq<nat>, b: seq<nat>)
    requires a <= b && CoveredAll(rooms, v, entered, a)
    ensures CoveredAll(rooms, v, entered, b)
  {
    PrefixElements(a, b);
  }

  /**
   * One vertical portal of the current room c: either its room t was listed
   * and nothing changed, or t was appended and walked from; either way the
   * walk from c stays traced.
   */
  lemma WalkJoins(rooms: Rooms, v: PortalDirection, c: nat, start: seq<nat>, before: seq<nat>, t: nat,
                  list: seq<nat>, entered: set<nat>, sub: set<nat>)
    requires start <= before && Traced(rooms, v, c, start, before, entered)
    requires PortalStep(rooms, v, c, t)
    requires (t in before && list == before && sub == {}) || (t !in before && Walked(rooms, v, t, before + [t], list, sub))
    ensures start <= list && Traced(rooms, v, c, start, list, entered + sub)
  {
    if t !in before {
      PrefixElements(start, before);
      PrefixElements(before + [t], list);
      assert Elements(start) <= Elements(before + [t]);
      ReachesStep(rooms, v, c, Elements(start), t);
      forall x | x in list && x !in start
        ensures (x in entered + sub && Reaches(rooms, v, c, Elements(start), x)) || WallTargetOf(rooms, entered + sub, x)
      {
        if x !in before && x != t {
          assert x !in before + [t];
          if x in sub && Reaches(rooms, v, t, Elements(before + [t]), x) {
            ReachesJoin(rooms, v, c, Elements(start), t, Elements(before + [t]), x);
          }
        }
      }
    }
  }

  /** The walk from c after its wall portals: the added rooms are behind those portals. */
  lemma WallsTraced(rooms: Rooms, v: PortalDirection, c: nat, start: seq<nat>, list: seq<nat>)
    requires IsRoom(rooms, c) && list == WallTargetsAdded(start, rooms[c].value.portals)
    ensures Walking(rooms, v, c, start, list, {c}, 0)
  {
    WallTargetsAddedSpec(start, rooms[c].value.portals);
  }

  /**
   * In a level without wall portals the last room of every chain from an
   * entered room that avoids the rooms listed before the walk is listed and
   * entered.
   */
  lemma {:induction false} ChainListed(rooms: Rooms, v: PortalDirection, c: nat, start: seq<nat>, list: seq<nat>,
                                       entered: set<nat>, from: nat, path: seq<nat>)
    requires v == Ceiling || v == Floor
    requires NoWallPortals(rooms) && Walked(rooms, v, c, start, list, entered)
    requires from in entered && IsChain(rooms, v, from, Elements(start), path)
    ensures path[|path| - 1] in list && path[|path| - 1] in entered
    decreases |path|
  {
    var p :| p in rooms[from].value.portals && p.direction == v && p.adjoiningRoom == path[0];
    assert path[0] in list && path[0] !in start;
    assert !WallTargetOf(rooms, entered, path[0]);
    if |path| > 1 {
      ChainListed(rooms, v, c, start, list, entered, path[0], path[1..]);
    }
  }

  /**
   * In a level without wall portals a walk adds exactly the rooms at the end
   * of a chain of v-portals from c that avoids the rooms listed before it.
   */
  lemma WalkExact(rooms: Rooms, v: PortalDirection, c: nat, start: seq<nat>, list: seq<nat>, entered: set<nat>)
    requires v == Ceiling || v == Floor
    requires NoWallPortals(rooms) && RoomList(rooms, list) && Walked(rooms, v, c, start, list, entered)
    ensures Elements(list) == Elements(start) + ReachSet(rooms, v, c, Elements(start))
  {
    PrefixElements(start, list);
    forall x | x in ReachSet(rooms, v, c, Elements(start))
      ensures x in list
    {
      var path :| IsChain(rooms, v, c, Elements(start), path) && path[|path| - 1] == x;
      ChainListed(rooms, v, c, start, list, entered, c, path);
    }
    forall x | x in list && x !in start
      ensures x in ReachSet(rooms, v, c, Elements(start))
    {
      assert !WallTargetOf(rooms, entered, x);
    }
  }

  /**
   * On a level without wall portals the list of room r holds exactly the rooms
   * at the end of a chain of ceiling portals from r, and the rooms at the end
   * of a chain of floor portals from r that passes through none of those.
   */
  lemma ReachedWithoutWalls(rooms: Rooms, r: nat, list: seq<nat>)
    requires ValidLevel(rooms) && IsRoom(rooms, r) && NoWallPortals(rooms) && Reached(rooms, r, list)
    ensures var up := ReachSet(rooms, Ceiling, r, {});
      Elements(list) == up + ReachSet(rooms, Floor, r, up)
  {
    var first, upEntered, downEntered := ReachedIsWalked(rooms, r, list);
    PrefixElements(first, list);
    assert Distinct(first) by {
      forall i, j | 0 <= i < j < |first|
        ensures first[i] != first[j]
      {
        assert first[i] == list[i] && first[j] == list[j];
      }
    }
    var none: seq<nat> := [];
    assert Elements(none) == {};
    WalkExact(rooms, Ceiling, r, none, first, upEntered);
    var up := ReachSet(rooms, Ceiling, r, {});
    assert Elements(first) == up;
    WalkExact(rooms, Floor, r, first, list, downEntered);
  }

  /** A chain that passes through no room of a avoids a. */
  lemma {:induction false} ChainOutside(rooms: Rooms, v: PortalDirection, c: nat, avoid: set<nat>, a: set<nat>, path: seq<nat>)
    requires IsChain(rooms, v, c, avoid, path) && forall i :: 0 <= i < |path| ==> path[i] !in a
    ensures IsChain(rooms, v, c, a, path)
    decreases |path|
  {
    if |path| > 1 {
      ChainOutside(rooms, v, path[0], avoid, a, path[1..]);
    }
  }

  /** Every nonempty prefix of a chain is a chain, and ends in a room of the level. */
  lemma {:induction false} ChainPrefix(rooms: Rooms, v: PortalDirection, c: nat, avoid: set<nat>, path: seq<nat>, k: nat)
    requires ValidLevel(rooms) && IsChain(rooms, v, c, avoid, path) && 0 < k <= |path|
    ensures IsChain(rooms, v, c, avoid, path[..k]) && IsRoom(rooms, path[k - 1])
    decreases k
  {
    var p :| p in rooms[c].value.portals && p.direction == v && p.adjoiningRoom == path[0];
    if k > 1 {
      ChainPrefix(rooms, v, path[0], avoid, path[1..], k - 1);
      assert path[..k][1..] == path[1..][..k - 1];
    }
  }

  /** A chain that avoids nothing avoids a when a shares no room with the rooms it can reach. */
  lemma ChainAvoids(rooms: Rooms, v: PortalDirection, c: nat, a: set<nat>, path: seq<nat>)
    requires ValidLevel(rooms) && IsChain(rooms, v, c, {}, path)
    requires ReachSet(rooms, v, c, {}) * a == {}
    ensures IsChain(rooms, v, c, a, path)
  {
    forall i | 0 <= i < |path|
      ensures path[i] !in a
    {
      ChainPrefix(rooms, v, c, {}, path, i + 1);
      assert path[..i + 1][i] == path[i];
      assert path[i] in ReachSet(rooms, v, c, {});
      assert path[i] !in ReachSet(rooms, v, c, {}) * a;
    }
    ChainOutside(rooms, v, c, {}, a, path);
  }

  /**
   * When no room is both at the end of a chain of ceiling portals and of a
   * chain of floor portals from r, the list of r holds exactly the rooms at the
   * end of either, on a level without wall portals.
   */
  lemma ReachedUpOrDown(rooms: Rooms, r: nat, list: seq<nat>)
    requires ValidLevel(rooms) && IsRoom(rooms, r) && NoWallPortals(rooms) && Reached(rooms, r, list)
    requires ReachSet(rooms, Ceiling, r, {}) * ReachSet(rooms, Floor, r, {}) == {}
    ensures Elements(list) == ReachSet(rooms, Ceiling, r, {}) + ReachSet(rooms, Floor, r, {})
  {
    var up := ReachSet(rooms, Ceiling, r, {});
    ReachedWithoutWalls(rooms, r, list);
    forall x | x in ReachSet(rooms, Floor, r, {})
      ensures x in ReachSet(rooms, Floor, r, up)
    {
      var path :| IsChain(rooms, Floor, r, {}, path) && path[|path| - 1] == x;
      ChainAvoids(rooms, Floor, r, up, path);
    }
    forall x | x in ReachSet(rooms, Floor, r, up)
      ensures x in ReachSet(rooms, Floor, r, {})
    {
      var path :| IsChain(rooms, Floor, r, up, path) && path[|path| - 1] == x;
      ChainAvoidsFewer(rooms, Floor, r, {}, up, path);
    }
  }

  /**
   * GetAllReachableRoomsUp/Down's wall-portal loop on a list: each room behind
   * a wall portal that is not yet listed is appended, in portal order.
   */
  function WallTargetsAdded(list: seq<nat>, portals: seq<Portal>): (r: seq<nat>)
    ensures list <= r
    decreases |portals|
  {
    if portals == [] then list
    else
      var l := WallTargetsAdded(list, portals[..|portals| - 1]);
      var p := portals[|portals| - 1];
      if IsVertical(p.direction) || p.adjoiningRoom in l then l else l + [p.adjoiningRoom]
  }

  /**
   * The wall-portal loop keeps a list distinct and adds to it exactly the
   * rooms behind wall portals that were not yet listed.
   */
  lemma {:induction false} WallTargetsAddedSpec(list: seq<nat>, portals: seq<Portal>)
    ensures var r := WallTargetsAdded(list, portals);
      (Distinct(list) ==> Distinct(r)) &&
      forall x :: x in r <==> x in list || exists p :: p in portals && !IsVertical(p.direction) && p.adjoiningRoom == x
    decreases |portals|
  {
    if portals != [] {
      var init := portals[..|portals| - 1];
      var last := portals[|portals| - 1];
      WallTargetsAddedSpec(list, init);
      assert portals == init + [last];
      var r := WallTargetsAdded(list, portals);
      forall x | x in r
        ensures x in list || exists p :: p in portals && !IsVertical(p.direction) && p.adjoiningRoom == x
      {
        if x !in WallTargetsAdded(list, init) {
          assert last in portals;
        } else if x !in list {
          var p :| p in init && !IsVertical(p.direction) && p.adjoiningRoom == x;
          assert p in portals;
        }
      }
      forall x | x in list || exists p :: p in portals && !IsVertical(p.direction) && p.adjoiningRoom == x
        ensures x in r
      {
        if x !in list {
          var p :| p in portals && !IsVertical(p.direction) && p.adjoiningRoom == x;
          if p != last {
            assert p in init;
          }
        }
      }
    }
  }

  /**
   * The walk's progress over the portals of the current room: every wall
   * portal, and every portal of direction v among the first i, leads into list.
   */
  ghost predicate PortalsListed(portals: seq<Portal>, v: PortalDirection, i: nat, list: seq<nat>) {
    (forall p :: p in portals && !IsVertical(p.direction) ==> p.adjoiningRoom in list) &&
    (forall k :: 0 <= k < i && k < |portals| && portals[k].direction == v ==> portals[k].adjoiningRoom in list)
  }

  /** Following the i-th portal into a grown list moves the progress on by one. */
  lemma PortalsListedGrow(portals: seq<Portal>, v: PortalDirection, i: nat, before: seq<nat>, list: seq<nat>)
    requires i < |portals| && PortalsListed(portals, v, i, before) && before <= list
    requires portals[i].adjoiningRoom in list
    ensures PortalsListed(portals, v, i + 1, list)
  {
    PrefixElements(before, list);
  }

  /** With every portal passed, the current room's portals except those of direction Opposite(v) are listed. */
  lemma PortalsListedCover(rooms: Rooms, c: nat, v: PortalDirection, list: seq<nat>)
    requires v == Ceiling || v == Floor
    requires IsRoom(rooms, c) && PortalsListed(rooms[c].value.portals, v, |rooms[c].value.portals|, list)
    ensures Covers(rooms, c, Opposite(v), list)
  {
    var portals := rooms[c].value.portals;
    forall p | p in portals && p.direction != Opposite(v)
      ensures p.adjoiningRoom in list
    {
      var k :| 0 <= k < |portals| && portals[k] == p;
    }
  }

  /**
   * The walk from room c in direction v over c's portals, after i of them:
   * the list grew from start, the rooms entered so far other than c are
   * covered, the added rooms are traced, and the portals passed are listed.
   */
  ghost predicate Walking(rooms: Rooms, v: PortalDirection, c: nat, start: seq<nat>, list: seq<nat>, entered: set<nat>, i: nat) {
    IsRoom(rooms, c) && c in entered && start <= list &&
    CoveredAll(rooms, v, entered - {c}, list) && Traced(rooms, v, c, start, list, entered) &&
    PortalsListed(rooms[c].value.portals, v, i, list)
  }

  /** Following the i-th portal, of the walk's direction, adds the rooms that sub-walk entered. */
  lemma WalkingStep(rooms: Rooms, v: PortalDirection, c: nat, start: seq<nat>, before: seq<nat>, list: seq<nat>,
                    entered: set<nat>, sub: set<nat>, i: nat)
    requires Walking(rooms, v, c, start, before, entered, i)
    requires i < |rooms[c].value.portals| && rooms[c].value.portals[i].direction == v
    requires var t := rooms[c].value.portals[i].adjoiningRoom;
      before <= list && t in list &&
      ((t in before && list == before && sub == {}) || (t !in before && Walked(rooms, v, t, before + [t], list, sub)))
    ensures Walking(rooms, v, c, start, list, entered + sub, i + 1)
  {
    var t := rooms[c].value.portals[i].adjoiningRoom;
    assert rooms[c].value.portals[i] in rooms[c].value.portals;
    WalkJoins(rooms, v, c, start, before, t, list, entered, sub);
    CoveredGrows(rooms, v, entered - {c}, before, list);
    PortalsListedGrow(rooms[c].value.portals, v, i, before, list);
  }

  /** Passing a portal of another direction changes nothing but the count. */
  lemma WalkingSkip(rooms: Rooms, v: PortalDirection, c: nat, start: seq<nat>, list: seq<nat>, entered: set<nat>, i: nat)
    requires Walking(rooms, v, c, start, list, entered, i)
    requires i < |rooms[c].value.portals| && rooms[c].value.portals[i].direction != v
    ensures Walking(rooms, v, c, start, list, entered, i + 1)
  {
  }

  /** With every portal of c passed, the walk from c is complete. */
  lemma WalkingDone(rooms: Rooms, v: PortalDirection, c: nat, start: seq<nat>, list: seq<nat>, entered: set<nat>)
    requires v == Ceiling || v == Floor
    requires IsRoom(rooms, c) && Walking(rooms, v, c, start, list, entered, |rooms[c].value.portals|)
    ensures Walked(rooms, v, c, start, list, entered)
  {
    PortalsListedCover(rooms, c, v, list);
  }

  /**
   * The walk from c covers and traces what it adds: it returns the rooms it
   * entered, c and the rooms first listed through a portal of direction v.
   */
  lemma {:induction false} WalkWalked(rooms: Rooms, v: PortalDirection, c: nat, start: seq<nat>) returns (entered: set<nat>)
    requires v == Ceiling || v == Floor
    requires ValidLevel(rooms) && IsRoom(rooms, c) && RoomList(rooms, start)
    ensures Walked(rooms, v, c, start, Walk(rooms, v, c, start), entered)
    decreases RoomSet(rooms) - Elements(start), 1, 0
  {
    var walls := WallTargetsAdded(start, rooms[c].value.portals);
    WallTargetsAddedRooms(rooms, c, start);
    PrefixElements(start, walls);
    WallsTraced(rooms, v, c, start, walls);
    entered := FollowFromWalking(rooms, v, c, start, 0, walls, {c});
    WalkingDone(rooms, v, c, start, Walk(rooms, v, c, start), entered);
  }

  /** The vertical-portal loop from its i-th portal on keeps the walk's state, up to the last portal. */
  lemma {:induction false} FollowFromWalking(rooms: Rooms, v: PortalDirection, c: nat, start: seq<nat>, i: nat,
                                             list: seq<nat>, entered: set<nat>) returns (after: set<nat>)
    requires v == Ceiling || v == Floor
    requires ValidLevel(rooms) && IsRoom(rooms, c) && i <= |rooms[c].value.portals| && RoomList(rooms, list)
    requires Walking(rooms, v, c, start, list, entered, i)
    ensures Walking(rooms, v, c, start, FollowFrom(rooms, v, c, i, list), after, |rooms[c].value.portals|)
    decreases RoomSet(rooms) - Elements(list), 0, |rooms[c].value.portals| - i
  {
    var portals := rooms[c].value.portals;
    if i == |portals| {
      after := entered;
    } else {
      var t := portals[i].adjoiningRoom;
      if portals[i].direction != v {
        WalkingSkip(rooms, v, c, start, list, entered, i);
        after := FollowFromWalking(rooms, v, c, start, i + 1, list, entered);
      } else if t in list {
        WalkingStep(rooms, v, c, start, list, list, entered, {}, i);
        after := FollowFromWalking(rooms, v, c, start, i + 1, list, entered);
      } else {
        AppendNeighbour(rooms, list, c, i);
        RemainingShrinks(rooms, list, list, t);
        var sub := WalkWalked(rooms, v, t, list + [t]);
        var w := Walk(rooms, v, t, list + [t]);
        WalkShrinks(rooms, list, t, w);
        WalkingStep(rooms, v, c, start, list, w, entered, sub, i);
        after := FollowFromWalking(rooms, v, c, start, i + 1, w, entered + sub);
      }
    }
  }

  /**
   * The list of base room r is made of distinct rooms of the level, holds
   * every neighbour of r, and both of its walks cover and trace what they
   * added.
   */
  lemma ReachedIsWalked(rooms: Rooms, r: nat, list: seq<nat>) returns (up: seq<nat>, upEntered: set<nat>, downEntered: set<nat>)
    requires ValidLevel(rooms) && IsRoom(rooms, r) && Reached(rooms, r, list)
    ensures RoomList(rooms, list)
    ensures forall p :: p in rooms[r].value.portals ==> p.adjoiningRoom in list
    ensures up == Walk(rooms, Ceiling, r, [])
    ensures Walked(rooms, Ceiling, r, [], up, upEntered) && Walked(rooms, Floor, r, up, list, downEntered)
  {
    up := Walk(rooms, Ceiling, r, []);
    upEntered := WalkWalked(rooms, Ceiling, r, []);
    downEntered := WalkWalked(rooms, Floor, r, up);
    PrefixElements(up, list);
    forall p | p in rooms[r].value.portals
      ensures p.adjoiningRoom in list
    {
      if p.direction == Floor {
        assert p.direction != Opposite(Floor);
      } else {
        assert p.direction != Opposite(Ceiling);
      }
    }
  }

  /** A room with the given portals and nothing else. */
  function PortalRoom(portals: seq<Portal>): W.Option<Room> {
    W.Some(Room([], false, false, portals, 0, 0, map[]))
  }

  /**
   * Wall portals 0 to 1 and 1 to 2: room 0's list holds room 1, but no walk
   * starts from a room listed through a wall portal, so room 2 is not listed.
   */
  lemma WallTargetsAreNotWalked()
    ensures var rooms := [PortalRoom([Portal(WallPositiveX, 1)]), PortalRoom([Portal(WallPositiveX, 2)]), PortalRoom([])];
      ValidLevel(rooms) && Reached(rooms, 0, [1])
  {
    var rooms := [PortalRoom([Portal(WallPositiveX, 1)]), PortalRoom([Portal(WallPositiveX, 2)]), PortalRoom([])];
    var portals := rooms[0].value.portals;
    assert WallTargetsAdded([], portals) == [1] by {
      assert portals[..0] == [];
    }
    assert Walk(rooms, Ceiling, 0, []) == [1];
    assert WallTargetsAdded([1], portals) == [1] by {
      assert portals[..0] == [];
    }
    assert Walk(rooms, Floor, 0, [1]) == [1];
  }

  /**
   * Room 0 has a wall portal and a ceiling portal to room 1, and room 1 a
   * ceiling portal to room 2: the wall portal lists room 1 first, so the
   * ceiling portal finds it listed and does not walk on, and room 2 is not
   * listed.
   */
  lemma ListedRoomsAreNotWalked()
    ensures var rooms := [PortalRoom([Portal(WallPositiveX, 1), Portal(Ceiling, 1)]), PortalRoom([Portal(Ceiling, 2)]), PortalRoom([])];
      ValidLevel(rooms) && Reached(rooms, 0, [1])
  {
    var rooms := [PortalRoom([Portal(WallPositiveX, 1), Portal(Ceiling, 1)]), PortalRoom([Portal(Ceiling, 2)]), PortalRoom([])];
    var portals := rooms[0].value.portals;
    assert WallTargetsAdded([], portals) == [1] by {
      assert portals[..1] == [Portal(WallPositiveX, 1)];
      assert portals[..1][..0] == [];
    }
    assert FollowFrom(rooms, Ceiling, 0, 2, [1]) == [1];
    assert FollowFrom(rooms, Ceiling, 0, 1, [1]) == [1];
    assert FollowFrom(rooms, Ceiling, 0, 0, [1]) == [1];
    assert Walk(rooms, Ceiling, 0, []) == [1];
    assert WallTargetsAdded([1], portals) == [1] by {
      assert portals[..1] == [Portal(WallPositiveX, 1)];
      assert portals[..1][..0] == [];
    }
    assert Walk(rooms, Floor, 0, [1]) == [1];
  }

  /** Appending an unlisted neighbour of a room keeps the list made of distinct rooms of the level. */
  lemma AppendNeighbour(rooms: Rooms, list: seq<nat>, current: nat, k: nat)
    requires ValidLevel(rooms) && IsRoom(rooms, current) && k < |rooms[current].value.portals|
    requires RoomList(rooms, list)
    requires rooms[current].value.portals[k].adjoiningRoom !in list
    ensures var a := rooms[current].value.portals[k].adjoiningRoom;
      IsRoom(rooms, a) && RoomList(rooms, list + [a])
  {
    assert rooms[current].value.portals[k] in rooms[current].value.portals;
  }

  /** The rooms not yet listed shrink when a new room is appended to a grown list. */
  lemma RemainingShrinks(rooms: Rooms, l0: seq<nat>, l1: seq<nat>, a: nat)
    requires l0 <= l1 && a !in l1 && IsRoom(rooms, a)
    ensures RoomSet(rooms) - Elements(l1 + [a]) < RoomSet(rooms) - Elements(l0)
  {
    PrefixElements(l0, l1);
    assert a in RoomSet(rooms) - Elements(l0);
    assert a !in RoomSet(rooms) - Elements(l1 + [a]);
  }
  /** A room appended to a list, and then walked on from, leaves fewer rooms unlisted. */
  lemma WalkShrinks(rooms: Rooms, list: seq<nat>, t: nat, w: seq<nat>)
    requires list + [t] <= w && t !in list && IsRoom(rooms, t)
    ensures RoomSet(rooms) - Elements(w) < RoomSet(rooms) - Elements(list)
  {
    PrefixElements(list, list + [t]);
    PrefixElements(list + [t], w);
    assert t in w;
    assert t in RoomSet(rooms) - Elements(list);
  }

  /** The wall-portal loop of a room of a valid level keeps the list made of distinct rooms of the level. */
  lemma WallTargetsAddedRooms(rooms: Rooms, c: nat, list: seq<nat>)
    requires ValidLevel(rooms) && IsRoom(rooms, c) && RoomList(rooms, list)
    ensures RoomList(rooms, WallTargetsAdded(list, rooms[c].value.portals))
  {
    WallTargetsAddedSpec(list, rooms[c].value.portals);
  }

  /**
   * GetAllReachableRoomsUp (v == Ceiling) and GetAllReachableRoomsDown
   * (v == Floor) from room c on a list: the rooms behind c's wall portals are
   * appended, then c's portals of direction v are followed in order.
   */
  ghost function Walk(rooms: Rooms, v: PortalDirection, c: nat, list: seq<nat>): (r: seq<nat>)
    requires ValidLevel(rooms) && IsRoom(rooms, c) && RoomList(rooms, list)
    ensures list <= r && RoomList(rooms, r)
    decreases RoomSet(rooms) - Elements(list), 1, 0
  {
    var walls := WallTargetsAdded(list, rooms[c].value.portals);
    WallTargetsAddedRooms(rooms, c, list);
    PrefixElements(list, walls);
    FollowFrom(rooms, v, c, 0, walls)
  }

  /**
   * The vertical-portal loop of the walk from c, from its i-th portal on: a
   * portal of direction v into a room not yet listed appends that room and
   * walks on from it before the next portal; a listed room is passed over.
   */
  ghost function FollowFrom(rooms: Rooms, v: PortalDirection, c: nat, i: nat, list: seq<nat>): (r: seq<nat>)
    requires ValidLevel(rooms) && IsRoom(rooms, c) && i <= |rooms[c].value.portals| && RoomList(rooms, list)
    ensures list <= r && RoomList(rooms, r)
    decreases RoomSet(rooms) - Elements(list), 0, |rooms[c].value.portals| - i
  {
    if i == |rooms[c].value.portals| then list
    else
      var t := rooms[c].value.portals[i].adjoiningRoom;
      if rooms[c].value.portals[i].direction != v || t in list then FollowFrom(rooms, v, c, i + 1, list)
      else
        AppendNeighbour(rooms, list, c, i);
        RemainingShrinks(rooms, list, list, t);
        var w := Walk(rooms, v, t, list + [t]);
        WalkShrinks(rooms, list, t, w);
        FollowFrom(rooms, v, c, i + 1, w)
  }


  // ---------------------------------------------------------------------------
  // Floor descent

  /** A sector of a room, in that room's sector coordinates. */
  datatype FloorSector = FloorSector(room: nat, x: int, z: int)

  /** The walk of FindBottomFloor through full floor portals, cut off after fuel steps. */
  function Descend(rooms: Rooms, c: FloorSector, fuel: nat): (r: FloorSector)
    requires ValidLevel(rooms) && IsRoom(rooms, c.room)
    ensures IsRoom(rooms, r.room)
    decreases fuel
  {
    var room := rooms[c.room].value;
    if fuel == 0 || (c.x, c.z) !in room.floorPortals then c
    else
      var below := room.floorPortals[(c.x, c.z)];
      var next := FloorSector(below, c.x + room.positionX - rooms[below].value.positionX, c.z + room.positionZ - rooms[below].value.positionZ);
      Descend(rooms, next, fuel - 1)
  }

  /** The descent keeps the sector's world position: room position plus sector coordinates. */
  lemma {:induction false} DescendKeepsWorldPosition(rooms: Rooms, c: FloorSector, fuel: nat)
    requires ValidLevel(rooms) && IsRoom(rooms, c.room)
    ensures var r := Descend(rooms, c, fuel);
      r.x + rooms[r.room].value.positionX == c.x + rooms[c.room].value.positionX &&
      r.z + rooms[r.room].value.positionZ == c.z + rooms[c.room].value.positionZ
    decreases fuel
  {
    var room := rooms[c.room].value;
    if fuel > 0 && (c.x, c.z) in room.floorPortals {
      var below := room.floorPortals[(c.x, c.z)];
      DescendKeepsWorldPosition(rooms, FloorSector(below, c.x + room.positionX - rooms[below].value.positionX, c.z + room.positionZ - rooms[below].value.positionZ), fuel - 1);
    }
  }

  /** Descending f + g steps is descending f steps, then g more from there. */
  lemma {:induction false} DescendComposes(rooms: Rooms, c: FloorSector, f: nat, g: nat)
    requires ValidLevel(rooms) && IsRoom(rooms, c.room)
    ensures Descend(rooms, c, f + g) == Descend(rooms, Descend(rooms, c, f), g)
    decreases f
  {
    var room := rooms[c.room].value;
    if f > 0 && (c.x, c.z) in room.floorPortals {
      var below := room.floorPortals[(c.x, c.z)];
      DescendComposes(rooms, FloorSector(below, c.x + room.positionX - rooms[below].value.positionX, c.z + room.positionZ - rooms[below].value.positionZ), f - 1, g);
    }
  }

  /** The sector has no full floor portal below it: the descent ends there. */
  predicate AtBottom(rooms: Rooms, c: FloorSector)
    requires IsRoom(rooms, c.room)
  {
    (c.x, c.z) !in rooms[c.room].value.floorPortals
  }

  /** A walk that has reached the bottom stays there whatever fuel is added. */
  lemma DescendStopsAtBottom(rooms: Rooms, c: FloorSector, f: nat, g: nat)
    requires ValidLevel(rooms) && IsRoom(rooms, c.room)
    ensures AtBottom(rooms, Descend(rooms, c, f)) ==> Descend(rooms, c, f + g) == Descend(rooms, c, f)
  {
    DescendComposes(rooms, c, f, g);
  }

  /**
   * A walk that still stands on a full floor portal has used all its fuel:
   * none of the sectors it passed through was the bottom.
   */
  lemma DescendOnPortalUsedAllFuel(rooms: Rooms, c: FloorSector, f: nat, i: nat)
    requires ValidLevel(rooms) && IsRoom(rooms, c.room) && i <= f
    ensures !AtBottom(rooms, Descend(rooms, c, f)) ==> !AtBottom(rooms, Descend(rooms, c, i))
  {
    DescendStopsAtBottom(rooms, c, i, f - i);
  }

  /** Every entry of the table points back at the last position of its key. */
  lemma {:induction false} IndexMapLocates(keys: seq<InstanceRef>, base: int)
    ensures forall x :: x in IndexMap(keys, base) ==>
      base <= IndexMap(keys, base)[x] < base + |keys| && keys[IndexMap(keys, base)[x] - base] == x
  {
    if keys != [] {
      var init, last := keys[..|keys| - 1], keys[|keys| - 1];
      IndexMapLocates(init, base);
      var m, m0 := IndexMap(keys, base), IndexMap(init, base);
      assert m == m0[last := base + |keys| - 1];
      forall x | x in m
        ensures base <= m[x] < base + |keys| && keys[m[x] - base] == x
      {
        if x != last {
          assert x in m0 && m[x] == m0[x];
          assert keys[m0[x] - base] == init[m0[x] - base];
        }
      }
    }
  }

  /** The camera table and the sink table index the camera list: cameras first, then sinks. */
  lemma CameraTablesIndexRecords(rooms: Rooms, roomIndex: nat -> int, boxIndex: InstanceRef -> int)
    ensures var cams, sinks := Instances(rooms, CameraKind), Instances(rooms, SinkKind);
      var records := CameraRecords(rooms, cams + sinks, roomIndex, boxIndex);
      (forall x :: x in IndexMap(cams, 0) ==>
        0 <= IndexMap(cams, 0)[x] < |cams| && records[IndexMap(cams, 0)[x]].source == x) &&
      (forall x :: x in IndexMap(sinks, |cams|) ==>
        |cams| <= IndexMap(sinks, |cams|)[x] < |records| && records[IndexMap(sinks, |cams|)[x]].source == x)
  {
    var cams, sinks := Instances(rooms, CameraKind), Instances(rooms, SinkKind);
    InstancesDistinct(rooms, CameraKind);
    InstancesDistinct(rooms, SinkKind);
    IndexMapLocates(cams, 0);
    IndexMapLocates(sinks, |cams|);
    IndexMapConcat(cams, sinks);
    var keys := cams + sinks;
    var records := CameraRecords(rooms, keys, roomIndex, boxIndex);
    CameraRecordsIndex(rooms, keys, roomIndex, boxIndex);
    forall i | 0 <= i < |keys|
      ensures records[i].source == keys[i]
    {
      assert records[i] == CameraListEntry(rooms, keys[i], roomIndex, boxIndex);
    }
  }

  /** Two tables numbered one after the other index the concatenation of their keys. */
  lemma IndexMapConcat(a: seq<InstanceRef>, b: seq<InstanceRef>)
    ensures forall x :: x in IndexMap(a, 0) ==> 0 <= IndexMap(a, 0)[x] < |a| && (a + b)[IndexMap(a, 0)[x]] == x
    ensures forall x :: x in IndexMap(b, |a|) ==> |a| <= IndexMap(b, |a|)[x] < |a| + |b| && (a + b)[IndexMap(b, |a|)[x]] == x
  {
    IndexMapLocates(a, 0);
    IndexMapLocates(b, |a|);
    forall x | x in IndexMap(b, |a|)
      ensures (a + b)[IndexMap(b, |a|)[x]] == x
    {
      var i := IndexMap(b, |a|)[x];
      assert (a + b)[i] == b[i - |a|];
    }
  }

  // ---------------------------------------------------------------------------
  // The compiler

  class Compiler {
    const rooms: Rooms
    var cameraTable: map<InstanceRef, int>
    var sinkTable: map<InstanceRef, int>
    var flybyTable: map<InstanceRef, int>
    var soundSourcesTable: map<InstanceRef, int>
    var moveablesTable: map<InstanceRef, int>
    var aiObjectsTable: map<InstanceRef, int>
    var cameras: seq<CameraRecord>
    var flyByCameras: seq<FlybyRecord>
    var soundSources: seq<SoundRecord>
    var items: seq<ItemRecord>
    var aiItems: seq<AiItemRecord>
    /** The ReachableRooms list of each room's compiled counterpart. */
    var reachableRooms: map<nat, seq<nat>>
    var warnings: seq<Warning>

    constructor(rooms: Rooms)
      ensures this.rooms == rooms
      ensures cameras == [] && flyByCameras == [] && soundSources == [] && items == [] && aiItems == []
      ensures reachableRooms == map[] && warnings == []
    {
      this.rooms := rooms;
      cameraTable, sinkTable, flybyTable := map[], map[], map[];
      soundSourcesTable, moveablesTable, aiObjectsTable := map[], map[], map[];
      cameras, flyByCameras, soundSources, items, aiItems := [], [], [], [], [];
      reachableRooms, warnings := map[], [];
    }

    /** PrepareSoundSources: number every sound source, then emit records for the usable ones. */
    method PrepareSoundSources(known: set<int>)
      modifies this`soundSourcesTable, this`soundSources, this`warnings
      ensures soundSourcesTable == IndexMap(Instances(rooms, SoundKind), 0)
      ensures soundSources == old(soundSources) + SoundRecords(rooms, known, Instances(rooms, SoundKind))
      ensures warnings == old(warnings) + SoundWarnings(rooms, known, Instances(rooms, SoundKind))
    {
      InstancesDistinct(rooms, SoundKind);
      var count;
      soundSourcesTable, count := NumberInstances(Instances(rooms, SoundKind), 0);
      AddSoundSources(known);
    }

    /** The record loop of PrepareSoundSources: empty sources are skipped, unknown sounds are reported. */
    method AddSoundSources(known: set<int>)
      modifies this`soundSources, this`warnings
      ensures soundSources == old(soundSources) + SoundRecords(rooms, known, Instances(rooms, SoundKind))
      ensures warnings == old(warnings) + SoundWarnings(rooms, known, Instances(rooms, SoundKind))
    {
      var keys := Instances(rooms, SoundKind);
      for i := 0 to |keys|
        invariant soundSources == old(soundSources) + SoundRecords(rooms, known, keys[..i])
        invariant warnings == old(warnings) + SoundWarnings(rooms, known, keys[..i])
      {
        var x := keys[i];
        SoundStep(rooms, known, keys, i);
        var source := ObjectAt(rooms, x);
        if source.isEmpty {
          continue;
        }
        if source.soundId !in known {
          AppendAssoc(old(warnings), SoundWarnings(rooms, known, keys[..i]), MissingSound(x));
          warnings := warnings + [MissingSound(x)];
          continue;
        }
        var flags := SoundFlags(source.playMode, rooms[x.room].value);
        AppendAssoc(old(soundSources), SoundRecords(rooms, known, keys[..i]), SoundRecord(x, source.soundId % 0x1_0000, flags));
        soundSources := soundSources + [SoundRecord(x, source.soundId % 0x1_0000, flags)];
      }
      assert keys[..|keys|] == keys;
    }

    /**
     * BuildCamerasAndSinks: cameras and then sinks share one counter, flybys
     * have their own; the camera list holds cameras then sinks; the flyby list
     * is sorted and then checked for duplicates.
     */
    method BuildCamerasAndSinks(roomIndex: nat -> int, boxIndex: InstanceRef -> int)
      modifies this`cameraTable, this`sinkTable, this`flybyTable, this`cameras, this`flyByCameras, this`warnings
      ensures cameraTable == IndexMap(Instances(rooms, CameraKind), 0)
      ensures sinkTable == IndexMap(Instances(rooms, SinkKind), |Instances(rooms, CameraKind)|)
      ensures flybyTable == IndexMap(Instances(rooms, FlybyKind), 0)
      ensures cameras == old(cameras) + CameraRecords(rooms, Instances(rooms, CameraKind) + Instances(rooms, SinkKind), roomIndex, boxIndex)
      ensures SortedBy(flyByCameras, FlybyKey)
      ensures multiset(flyByCameras) == multiset(old(flyByCameras) + FlybyRecords(rooms, Instances(rooms, FlybyKind), roomIndex))
      ensures warnings == old(warnings) + DuplicateWarnings(flyByCameras)
    {
      NumberCamerasAndSinks();
      AddCameras(roomIndex, boxIndex);
      AddSinks(roomIndex, boxIndex);
      CameraRecordsConcat(rooms, Instances(rooms, CameraKind), Instances(rooms, SinkKind), roomIndex, boxIndex);
      ConcatAssoc(old(cameras), CameraRecords(rooms, Instances(rooms, CameraKind), roomIndex, boxIndex),
        CameraRecords(rooms, Instances(rooms, SinkKind), roomIndex, boxIndex));
      AddFlybyRecords(roomIndex);
      CheckFlybyDuplicates();
    }

    /** The camera loop of BuildCamerasAndSinks: each camera with its room and fixed flag. */
    method AddCameras(roomIndex: nat -> int, boxIndex: InstanceRef -> int)
      modifies this`cameras
      ensures cameras == old(cameras) + CameraRecords(rooms, Instances(rooms, CameraKind), roomIndex, boxIndex)
    {
      var keys := Instances(rooms, CameraKind);
      for i := 0 to |keys|
        invariant cameras == old(cameras) + CameraRecords(rooms, keys[..i], roomIndex, boxIndex)
      {
        var x := keys[i];
        CamerasStep(rooms, keys, i, roomIndex, boxIndex);
        var entry := CameraRecord(x, roomIndex(x.room), if ObjectAt(rooms, x).fixed then 1 else 0);
        AppendAssoc(old(cameras), CameraRecords(rooms, keys[..i], roomIndex, boxIndex), entry);
        cameras := cameras + [entry];
      }
      assert keys[..|keys|] == keys;
    }

    /** The sink loop of BuildCamerasAndSinks: each sink with its strength and box. */
    method AddSinks(roomIndex: nat -> int, boxIndex: InstanceRef -> int)
      modifies this`cameras
      ensures cameras == old(cameras) + CameraRecords(rooms, Instances(rooms, SinkKind), roomIndex, boxIndex)
    {
      var keys := Instances(rooms, SinkKind);
      for i := 0 to |keys|
        invariant cameras == old(cameras) + CameraRecords(rooms, keys[..i], roomIndex, boxIndex)
      {
        var x := keys[i];
        SinksStep(rooms, keys, i, roomIndex, boxIndex);
        var entry := CameraRecord(x, ObjectAt(rooms, x).strength, boxIndex(x));
        AppendAssoc(old(cameras), CameraRecords(rooms, keys[..i], roomIndex, boxIndex), entry);
        cameras := cameras + [entry];
      }
      assert keys[..|keys|] == keys;
    }

    /** The flyby list of BuildCamerasAndSinks, sorted by (Sequence, Index). */
    method AddFlybyRecords(roomIndex: nat -> int)
      modifies this`flyByCameras
      ensures SortedBy(flyByCameras, FlybyKey)
      ensures multiset(flyByCameras) == multiset(old(flyByCameras) + FlybyRecords(rooms, Instances(rooms, FlybyKind), roomIndex))
    {
      var flybyKeys := Instances(rooms, FlybyKind);
      for i := 0 to |flybyKeys|
        invariant flyByCameras == old(flyByCameras) + FlybyRecords(rooms, flybyKeys[..i], roomIndex)
      {
        assert flybyKeys[..i + 1][..i] == flybyKeys[..i];
        AppendAssoc(old(flyByCameras), FlybyRecords(rooms, flybyKeys[..i], roomIndex), FlybyRecordOf(rooms, flybyKeys[i], roomIndex));
        flyByCameras := flyByCameras + [FlybyRecordOf(rooms, flybyKeys[i], roomIndex)];
      }
      assert flybyKeys[..|flybyKeys|] == flybyKeys;
      SortByKeyIsSorted(flyByCameras, FlybyKey);
      flyByCameras := SortByKey(flyByCameras, FlybyKey);
    }

    /** The numbering of cameras, sinks and flybys that opens BuildCamerasAndSinks. */
    method NumberCamerasAndSinks()
      modifies this`cameraTable, this`sinkTable, this`flybyTable
      ensures cameraTable == IndexMap(Instances(rooms, CameraKind), 0)
      ensures sinkTable == IndexMap(Instances(rooms, SinkKind), |Instances(rooms, CameraKind)|)
      ensures flybyTable == IndexMap(Instances(rooms, FlybyKind), 0)
    {
      InstancesDistinct(rooms, CameraKind);
      InstancesDistinct(rooms, SinkKind);
      InstancesDistinct(rooms, FlybyKind);
      var cameraSinkId, flybyId;
      cameraTable, cameraSinkId := NumberInstances(Instances(rooms, CameraKind), 0);
      flybyTable, flybyId := NumberInstances(Instances(rooms, FlybyKind), 0);
      sinkTable, cameraSinkId := NumberInstances(Instances(rooms, SinkKind), cameraSinkId);
    }

    /** The duplicate check after the flyby sort. */
    method CheckFlybyDuplicates()
      modifies this`warnings
      ensures warnings == old(warnings) + DuplicateWarnings(flyByCameras)
    {
      var lastSeq: int, lastIndex: int := -1, -1;
      for i := 0 to |flyByCameras|
        modifies this`warnings
        invariant warnings == old(warnings) + DuplicateWarnings(flyByCameras[..i])
        invariant i == 0 ==> lastSeq == -1 && lastIndex == -1
        invariant i > 0 ==> lastSeq == flyByCameras[i - 1].sequence && lastIndex == flyByCameras[i - 1].index
      {
        var camera := flyByCameras[i];
        if camera.sequence != lastSeq {
          lastSeq := camera.sequence;
          lastIndex := -1;
        }
        if camera.index == lastIndex && camera.sequence == lastSeq {
          warnings := warnings + [DuplicateFlyby(camera.sequence, lastIndex)];
        }
        lastIndex := camera.index;
        assert flyByCameras[..i + 1][..i] == flyByCameras[..i];
      }
      assert flyByCameras[..|flyByCameras|] == flyByCameras;
    }

    /**
     * PrepareItems: split the moveables into items and AI objects, sort the AI
     * objects above TR3, and warn about the item count. ok is false when a
     * checked cast of an object ID to ushort throws.
     */
    method PrepareItems(s: ItemSettings) returns (ok: bool)
      modifies this`moveablesTable, this`aiObjectsTable, this`items, this`aiItems, this`warnings
      ensures var r := PreparedItems(s, rooms, ItemTables(old(items), old(aiItems), map[], map[], old(warnings)));
        ok <==> r.Some?
      ensures ok ==>
        PreparedItems(s, rooms, ItemTables(old(items), old(aiItems), map[], map[], old(warnings))) == W.Some(Tables())
    {
      moveablesTable, aiObjectsTable := map[], map[];
      ok := PlaceMoveables(s);
      if ok {
        SortAndCountItems(s);
      }
    }

    /** The moveable loop of PrepareItems; ok is false when a checked cast throws. */
    method PlaceMoveables(s: ItemSettings) returns (ok: bool)
      modifies this`moveablesTable, this`aiObjectsTable, this`items, this`aiItems, this`warnings
      ensures var r := SplitMoveables(s, rooms, old(Tables()), Instances(rooms, MoveableKind));
        (ok <==> r.Some?) && (ok ==> r == W.Some(Tables()))
    {
      var keys := Instances(rooms, MoveableKind);
      ghost var start := Tables();
      for i := 0 to |keys|
        invariant SplitMoveables(s, rooms, start, keys[..i]) == W.Some(Tables())
      {
        assert keys[..i + 1][..i] == keys[..i];
        ghost var before := Tables();
        var placed := PlaceMoveableAt(s, keys[i]);
        assert SplitMoveables(s, rooms, start, keys[..i + 1]) == PlaceMoveable(s, rooms, before, keys[i]);
        if !placed {
          SplitMoveablesStaysNone(s, rooms, start, keys, i + 1);
          return false;
        }
      }
      assert keys[..|keys|] == keys;
      ok := true;
    }

    /** The end of PrepareItems: the AI sort above TR3, then the item-count warnings. */
    method SortAndCountItems(s: ItemSettings)
      modifies this`aiItems, this`warnings
      ensures aiItems == if IsNewTR(s) then SortByKey(old(aiItems), AiKey) else old(aiItems)
      ensures warnings == old(warnings) + LimitWarnings(s.version, |items|)
    {
      if IsNewTR(s) {
        aiItems := SortByKey(aiItems, AiKey);
      }
      var (maxItemCount, maxSafeItemCount) := ItemLimits(s.version);
      ConcatAssoc(old(warnings), if |items| > maxItemCount then [ItemLimitExceeded(maxItemCount, s.version == TR4)] else [],
        if |items| > maxSafeItemCount then [SafeItemLimitExceeded(maxSafeItemCount)] else []);
      if |items| > maxItemCount {
        warnings := warnings + [ItemLimitExceeded(maxItemCount, s.version == TR4)];
      }
      if |items| > maxSafeItemCount {
        warnings := warnings + [SafeItemLimitExceeded(maxSafeItemCount)];
      }
    }

    /** The lists and tables PrepareItems fills, with the warnings log. */
    function Tables(): ItemTables
      reads this
    {
      ItemTables(items, aiItems, moveablesTable, aiObjectsTable, warnings)
    }

    /**
     * One iteration of the moveable loop of PrepareItems: warn about a missing
     * wad entry, or add the moveable to the AI list or the item list and number
     * it in the matching table. placed is false when a checked cast throws.
     */
    method PlaceMoveableAt(s: ItemSettings, x: InstanceRef) returns (placed: bool)
      requires IsInstance(rooms, x, MoveableKind)
      modifies this`moveablesTable, this`aiObjectsTable, this`items, this`aiItems, this`warnings
      ensures placed <==> PlaceMoveable(s, rooms, old(Tables()), x).Some?
      ensures placed ==> PlaceMoveable(s, rooms, old(Tables()), x) == W.Some(Tables())
    {
      var m := ObjectAt(rooms, x);
      if m.typeId !in s.wadMoveables {
        warnings := warnings + [MissingMoveable(x)];
        return true;
      }
      var isNewTR := IsNewTR(s);
      if isNewTR && s.isAI(m.typeId) {
        if m.typeId > 0xFFFF {
          return false;
        }
        aiItems := aiItems + [AiItemRecord(x, m.typeId, m.ocb, (m.codeBits * 2) % 0x1_0000)];
        aiObjectsTable := aiObjectsTable[x := |aiObjectsTable|];
      } else {
        var realId := s.substituteId(m.typeId);
        if realId > 0xFFFF {
          return false;
        }
        var ocb := if isNewTR then m.ocb else ToShort(m.color);
        items := items + [ItemRecord(x, realId, ocb, m.color, ItemFlags(m.codeBits, m.clearBody, m.invisible))];
        moveablesTable := moveablesTable[x := |moveablesTable|];
      }
      placed := true;
    }

    /**
     * GetAllReachableRoomsUp (vertical == Ceiling) and GetAllReachableRoomsDown
     * (vertical == Floor): add the rooms behind the current room's wall portals,
     * then follow each portal in the walk's direction.
     */
    method CollectReachable(baseRoom: nat, currentRoom: nat, vertical: PortalDirection)
      requires vertical == Ceiling || vertical == Floor
      requires ValidLevel(rooms) && IsRoom(rooms, currentRoom)
      requires baseRoom in reachableRooms && RoomList(rooms, reachableRooms[baseRoom])
      modifies this`reachableRooms
      ensures baseRoom in reachableRooms && reachableRooms == old(reachableRooms)[baseRoom := reachableRooms[baseRoom]]
      ensures reachableRooms[baseRoom] == Walk(rooms, vertical, currentRoom, old(reachableRooms[baseRoom]))
      decreases RoomSet(rooms) - Elements(reachableRooms[baseRoom]), 3
    {
      AddWallNeighbours(baseRoom, currentRoom);
      WallTargetsAddedRooms(rooms, currentRoom, old(reachableRooms[baseRoom]));
      PrefixElements(old(reachableRooms[baseRoom]), reachableRooms[baseRoom]);
      FollowVerticals(baseRoom, currentRoom, vertical);
    }

    /** The vertical-portal loop of both walks: each portal in the walk's direction is followed in turn. */
    method FollowVerticals(baseRoom: nat, currentRoom: nat, vertical: PortalDirection)
      requires vertical == Ceiling || vertical == Floor
      requires ValidLevel(rooms) && IsRoom(rooms, currentRoom)
      requires baseRoom in reachableRooms && RoomList(rooms, reachableRooms[baseRoom])
      modifies this`reachableRooms
      ensures baseRoom in reachableRooms && reachableRooms == old(reachableRooms)[baseRoom := reachableRooms[baseRoom]]
      ensures reachableRooms[baseRoom] == FollowFrom(rooms, vertical, currentRoom, 0, old(reachableRooms[baseRoom]))
      decreases RoomSet(rooms) - Elements(reachableRooms[baseRoom]), 2
    {
      for i := 0 to |rooms[currentRoom].value.portals|
        invariant baseRoom in reachableRooms && reachableRooms == old(reachableRooms)[baseRoom := reachableRooms[baseRoom]]
        invariant RoomList(rooms, reachableRooms[baseRoom])
        invariant Elements(old(reachableRooms[baseRoom])) <= Elements(reachableRooms[baseRoom])
        invariant FollowFrom(rooms, vertical, currentRoom, i, reachableRooms[baseRoom]) ==
          FollowFrom(rooms, vertical, currentRoom, 0, old(reachableRooms[baseRoom]))
      {
        ghost var before := reachableRooms[baseRoom];
        FollowStep(baseRoom, currentRoom, vertical, i);
        PrefixElements(before, reachableRooms[baseRoom]);
      }
    }

    /**
     * One pass of the vertical-portal loop: a portal of the walk's direction is
     * followed, any other passed over; the rest of the loop then ends where it
     * would have from the old list.
     */
    method FollowStep(baseRoom: nat, currentRoom: nat, vertical: PortalDirection, i: nat)
      requires vertical == Ceiling || vertical == Floor
      requires ValidLevel(rooms) && IsRoom(rooms, currentRoom) && i < |rooms[currentRoom].value.portals|
      requires baseRoom in reachableRooms && RoomList(rooms, reachableRooms[baseRoom])
      modifies this`reachableRooms
      ensures baseRoom in reachableRooms && reachableRooms == old(reachableRooms)[baseRoom := reachableRooms[baseRoom]]
      ensures old(reachableRooms[baseRoom]) <= reachableRooms[baseRoom] && RoomList(rooms, reachableRooms[baseRoom])
      ensures FollowFrom(rooms, vertical, currentRoom, i + 1, reachableRooms[baseRoom]) ==
        FollowFrom(rooms, vertical, currentRoom, i, old(reachableRooms[baseRoom]))
      decreases RoomSet(rooms) - Elements(reachableRooms[baseRoom]), 1
    {
      if rooms[currentRoom].value.portals[i].direction == vertical {
        FollowPortal(baseRoom, currentRoom, vertical, i);
      }
    }

    /**
     * One portal of the walk's direction: a room already listed is passed over;
     * a room not yet listed is appended and walked on from.
     */
    method FollowPortal(baseRoom: nat, currentRoom: nat, vertical: PortalDirection, k: nat)
      requires vertical == Ceiling || vertical == Floor
      requires ValidLevel(rooms) && IsRoom(rooms, currentRoom) && k < |rooms[currentRoom].value.portals|
      requires baseRoom in reachableRooms && RoomList(rooms, reachableRooms[baseRoom])
      modifies this`reachableRooms
      ensures baseRoom in reachableRooms && reachableRooms == old(reachableRooms)[baseRoom := reachableRooms[baseRoom]]
      ensures old(reachableRooms[baseRoom]) <= reachableRooms[baseRoom] && RoomList(rooms, reachableRooms[baseRoom])
      ensures var t := rooms[currentRoom].value.portals[k].adjoiningRoom;
        reachableRooms[baseRoom] ==
          if t in old(reachableRooms[baseRoom]) then old(reachableRooms[baseRoom])
          else Walk(rooms, vertical, t, old(reachableRooms[baseRoom]) + [t])
      decreases RoomSet(rooms) - Elements(reachableRooms[baseRoom]), 0
    {
      var next := rooms[currentRoom].value.portals[k].adjoiningRoom;
      var before := reachableRooms[baseRoom];
      if next in before {
        return;
      }
      AppendNeighbour(rooms, before, currentRoom, k);
      RemainingShrinks(rooms, before, before, next);
      reachableRooms := reachableRooms[baseRoom := before + [next]];
      CollectReachable(baseRoom, next, vertical);
    }

    /** The wall-portal loop of both walks: each room behind a wall portal not yet listed is appended, without recursion. */
    method AddWallNeighbours(baseRoom: nat, currentRoom: nat)
      requires ValidLevel(rooms) && IsRoom(rooms, currentRoom)
      requires baseRoom in reachableRooms && RoomList(rooms, reachableRooms[baseRoom])
      modifies this`reachableRooms
      ensures baseRoom in reachableRooms && reachableRooms == old(reachableRooms)[baseRoom := reachableRooms[baseRoom]]
      ensures RoomList(rooms, reachableRooms[baseRoom])
      ensures reachableRooms[baseRoom] == WallTargetsAdded(old(reachableRooms[baseRoom]), rooms[currentRoom].value.portals)
    {
      var portals := rooms[currentRoom].value.portals;
      for i := 0 to |portals|
        invariant baseRoom in reachableRooms && reachableRooms == old(reachableRooms)[baseRoom := reachableRooms[baseRoom]]
        invariant RoomList(rooms, reachableRooms[baseRoom])
        invariant reachableRooms[baseRoom] == WallTargetsAdded(old(reachableRooms[baseRoom]), portals[..i])
      {
        assert portals[..i + 1][..i] == portals[..i];
        if portals[i].direction == Floor || portals[i].direction == Ceiling {
          continue;
        }
        var before := reachableRooms[baseRoom];
        if portals[i].adjoiningRoom !in before {
          AppendNeighbour(rooms, before, currentRoom, i);
          reachableRooms := reachableRooms[baseRoom := before + [portals[i].adjoiningRoom]];
        }
      }
      assert portals[..|portals|] == portals;
    }

    /**
     * GetAllReachableRooms: every room gets an empty list, then each room's
     * list is filled by the upward walk and the downward walk from it.
     */
    method GetAllReachableRooms()
      requires ValidLevel(rooms)
      modifies this`reachableRooms
      ensures forall r :: r in reachableRooms <==> r in old(reachableRooms) || IsRoom(rooms, r)
      ensures forall r :: r in old(reachableRooms) && !IsRoom(rooms, r) ==> reachableRooms[r] == old(reachableRooms)[r]
      ensures forall r :: IsRoom(rooms, r) ==> Reached(rooms, r, reachableRooms[r])
    {
      ResetReachable();
      ghost var reset := reachableRooms;
      for i := 0 to |rooms|
        invariant reachableRooms.Keys == reset.Keys
        invariant forall r :: r in reset && !(r < i && IsRoom(rooms, r)) ==> reachableRooms[r] == reset[r]
        invariant forall r: nat :: r < i && IsRoom(rooms, r) ==> Reached(rooms, r, reachableRooms[r])
      {
        if rooms[i].Some? {
          CollectFrom(i);
        }
      }
    }

    /** The first loop of GetAllReachableRooms: a fresh, empty list for every room. */
    method ResetReachable()
      modifies this`reachableRooms
      ensures forall r :: r in reachableRooms <==> r in old(reachableRooms) || IsRoom(rooms, r)
      ensures forall r :: r in old(reachableRooms) && !IsRoom(rooms, r) ==> reachableRooms[r] == old(reachableRooms)[r]
      ensures forall r :: IsRoom(rooms, r) ==> reachableRooms[r] == []
    {
      for i := 0 to |rooms|
        invariant forall r: nat :: r in reachableRooms <==> r in old(reachableRooms) || (r < i && IsRoom(rooms, r))
        invariant forall r :: r in old(reachableRooms) && !(r < i && IsRoom(rooms, r)) ==> reachableRooms[r] == old(reachableRooms)[r]
        invariant forall r: nat :: r < i && IsRoom(rooms, r) ==> reachableRooms[r] == []
      {
        if rooms[i].Some? {
          reachableRooms := reachableRooms[i := []];
        }
      }
    }

    /** The second loop's body for room r: the upward walk, then the downward walk, from an empty list. */
    method CollectFrom(r: nat)
      requires ValidLevel(rooms) && IsRoom(rooms, r) && r in reachableRooms && reachableRooms[r] == []
      modifies this`reachableRooms
      ensures r in reachableRooms && reachableRooms == old(reachableRooms)[r := reachableRooms[r]]
      ensures Reached(rooms, r, reachableRooms[r])
    {
      CollectReachable(r, r, Ceiling);
      CollectReachable(r, r, Floor);
    }

    /**
     * FindBottomFloor: while the sector's floor is a full portal, step into the
     * room below, converting the sector coordinates through the two rooms'
     * positions. The walk is cut off after fuel steps.
     */
    method FindBottomFloor(room: nat, x: int, z: int, fuel: nat) returns (bottom: nat, bx: int, bz: int)
      requires ValidLevel(rooms) && IsRoom(rooms, room)
      ensures FloorSector(bottom, bx, bz) == Descend(rooms, FloorSector(room, x, z), fuel)
      ensures IsRoom(rooms, bottom)
      ensures bx + rooms[bottom].value.positionX == x + rooms[room].value.positionX
      ensures bz + rooms[bottom].value.positionZ == z + rooms[room].value.positionZ
    {
      bottom, bx, bz := room, x, z;
      var steps := 0;
      while steps < fuel && (bx, bz) in rooms[bottom].value.floorPortals
        invariant steps <= fuel && IsRoom(rooms, bottom)
        invariant Descend(rooms, FloorSector(bottom, bx, bz), fuel - steps) == Descend(rooms, FloorSector(room, x, z), fuel)
        decreases fuel - steps
      {
        var current := rooms[bottom].value;
        var below := current.floorPortals[(bx, bz)];
        bx := bx + current.positionX - rooms[below].value.positionX;
        bz := bz + current.positionZ - rooms[below].value.positionZ;
        bottom := below;
        steps := steps + 1;
      }
      DescendKeepsWorldPosition(rooms, FloorSector(room, x, z), fuel);
    }
  }
}
