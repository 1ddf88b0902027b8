/**
 * The rules for NG trigger parameters: which trigger and target types a game
 * version offers, when a trigger is valid, how a timer and an extra value are
 * packed into one ushort, and the conversion of a trigger to and from the
 * three-number text form used in TRNG scripts.
 *
 * NgCatalog is given as three maps from a ushort id to a subtype record, and
 * NgParameterRange.ParameterMatches as a function parameter.
 */
module NgParameterInfo {
  import W = Wrappers
  import opened Versions
  import opened Text
  import opened Bits
  import EditorUtils

  type UShort = x: nat | x <= 0xFFFF
  type Short = x: int | -0x8000 <= x <= 0x7FFF

  datatype TriggerType =
    | Trigger | Pad | Switch | Key | Pickup | Heavy | Antipad | Combat | Dummy | Antitrigger
    | HeavySwitch | HeavyAntitrigger | Monkey | Skeleton | TightRope | Crawl | Climb | ConditionNg

  datatype TriggerTargetType =
    | Object | Camera | Sink | FlipMap | FlipOn | FlipOff | Target | FinishLevel | PlayAudio | FlipEffect
    | Secret | FlyByCamera | ActionNg | FmvNg | TimerfieldNg | LuaScript | ParameterNg

  /** The part of LevelSettings the rules read: the target game and the order of TRVersion.Game. */
  datatype LevelSettings = LevelSettings(order: VersionOrder, version: Game)

  datatype ParameterKind =
    | Empty | AnyNumber | MoveablesInLevel | CamerasInLevel | SinksInLevel | FlybyCamerasInLevel | LuaFunctions

  /** NgParameterRange: a kind of level entity, or a fixed list of ushort keys. */
  datatype ParameterRange = Kind(kind: ParameterKind) | Listed(keys: set<nat>)

  /** NgTriggerSubtype: a catalogue entry with the ranges of its other two parameters. */
  datatype NgSubtype = NgSubtype(
    name: string,
    target: ParameterRange,
    timer: ParameterRange,
    extra: ParameterRange,
    extraIsEmpty: bool)

  /** The main lists of NgCatalog, keyed by ushort id, and its timer-field range. */
  datatype NgCatalog = NgCatalog(
    conditions: map<nat, NgSubtype>,
    actions: map<nat, NgSubtype>,
    flipEffects: map<nat, NgSubtype>,
    timerField: ParameterRange)

  /** ITriggerParameter: null, a raw ushort, a level object, a room, or anything else. */
  datatype Param =
    | NoParam
    | UShortParam(key: UShort)
    | ObjectParam(hasScriptId: bool, scriptId: W.Option<nat>, isStatic: bool)
    | RoomParam(room: nat)
    | OtherParam

  datatype TriggerInstance = TriggerInstance(
    triggerType: TriggerType,
    targetType: TriggerTargetType,
    target: Param,
    timer: Param,
    extra: Param)

  /** The ten trigger types every game version offers, in order. */
  const BaseTriggerTypes: seq<TriggerType> :=
    [Trigger, Pad, Switch, Key, Pickup, Heavy, Antipad, Combat, Dummy, Antitrigger]

  /** The eleven target types every non-condition trigger offers, in order. */
  const BaseTargetTypes: seq<TriggerTargetType> :=
    [Object, Camera, Sink, FlipMap, FlipOn, FlipOff, Target, FinishLevel, PlayAudio, FlipEffect, Secret]

  /** The trigger types offered by a level's game version, in the order the editor lists them. */
  function GetTriggerTypeRange(s: LevelSettings): (r: seq<TriggerType>)
    ensures |r| >= 10 && r[..10] == BaseTriggerTypes
  {
    BaseTriggerTypes + HeavyTriggerTypes(s) + LateTriggerTypes(s)
  }

  function HeavyTriggerTypes(s: LevelSettings): seq<TriggerType> {
    if AtLeast(s.order, s.version, TR4) then [HeavySwitch, HeavyAntitrigger] else []
  }

  function LateTriggerTypes(s: LevelSettings): seq<TriggerType> {
    if s.version == TRNG then [ConditionNg]
    else
      (if AtLeast(s.order, s.version, TR4) then [Monkey] else [])
      + (if s.version == TR5 then [Skeleton] else [])
      + (if s.order.legacy(s.version) == TR5 then [TightRope, Crawl, Climb] else [])
  }

  /** Which of the version-dependent trigger types a level offers. */
  lemma TriggerTypeRangeMembers(s: LevelSettings)
    ensures (HeavySwitch in GetTriggerTypeRange(s)) <==> AtLeast(s.order, s.version, TR4)
    ensures (HeavyAntitrigger in GetTriggerTypeRange(s)) <==> AtLeast(s.order, s.version, TR4)
    ensures (ConditionNg in GetTriggerTypeRange(s)) <==> s.version == TRNG
    ensures (Monkey in GetTriggerTypeRange(s)) <==> s.version != TRNG && AtLeast(s.order, s.version, TR4)
    ensures (Skeleton in GetTriggerTypeRange(s)) <==> s.version == TR5
    ensures (TightRope in GetTriggerTypeRange(s)) <==> s.version != TRNG && s.order.legacy(s.version) == TR5
    ensures (Crawl in GetTriggerTypeRange(s)) <==> s.version != TRNG && s.order.legacy(s.version) == TR5
    ensures (Climb in GetTriggerTypeRange(s)) <==> s.version != TRNG && s.order.legacy(s.version) == TR5
  {
    BaseHasNoLateTriggerType();
    LateTriggerTypeMembers(s);
    var r := GetTriggerTypeRange(s);
    assert forall t :: t in r <==> t in BaseTriggerTypes || t in HeavyTriggerTypes(s) || t in LateTriggerTypes(s);
  }

  lemma BaseHasNoLateTriggerType()
    ensures forall t :: t in BaseTriggerTypes ==> !t.HeavySwitch? && !t.HeavyAntitrigger? && !t.ConditionNg?
    ensures forall t :: t in BaseTriggerTypes ==> !t.Monkey? && !t.Skeleton? && !t.TightRope? && !t.Crawl? && !t.Climb?
  {
  }

  lemma LateTriggerTypeMembers(s: LevelSettings)
    ensures forall t :: t in LateTriggerTypes(s) ==> !t.HeavySwitch? && !t.HeavyAntitrigger?
    ensures (ConditionNg in LateTriggerTypes(s)) <==> s.version == TRNG
    ensures (Monkey in LateTriggerTypes(s)) <==> s.version != TRNG && AtLeast(s.order, s.version, TR4)
    ensures (Skeleton in LateTriggerTypes(s)) <==> s.version == TR5
    ensures (TightRope in LateTriggerTypes(s)) <==> s.version != TRNG && s.order.legacy(s.version) == TR5
    ensures (Crawl in LateTriggerTypes(s)) <==> s.version != TRNG && s.order.legacy(s.version) == TR5
    ensures (Climb in LateTriggerTypes(s)) <==> s.version != TRNG && s.order.legacy(s.version) == TR5
  {
  }

  /** The target types offered for a trigger type, in the order the editor lists them. */
  function GetTargetTypeRange(s: LevelSettings, triggerType: TriggerType): (r: seq<TriggerTargetType>)
    ensures triggerType == ConditionNg ==> r == [ParameterNg]
    ensures triggerType != ConditionNg ==> |r| >= 11 && r[..11] == BaseTargetTypes
  {
    if triggerType == ConditionNg then [ParameterNg]
    else BaseTargetTypes + ExtraTargetTypes(s)
  }

  function ExtraTargetTypes(s: LevelSettings): seq<TriggerTargetType> {
    (if AtLeast(s.order, s.version, TR4) then [FlyByCamera] else [])
    + (if s.version == TRNG then [ActionNg, FmvNg, TimerfieldNg] else [])
    + (if s.version == TombEngine then [LuaScript] else [])
  }

  /** Which of the version-dependent target types an ordinary trigger offers. */
  lemma TargetTypeRangeMembers(s: LevelSettings, triggerType: TriggerType)
    requires triggerType != ConditionNg
    ensures ParameterNg !in GetTargetTypeRange(s, triggerType)
    ensures (FlyByCamera in GetTargetTypeRange(s, triggerType)) <==> AtLeast(s.order, s.version, TR4)
    ensures (ActionNg in GetTargetTypeRange(s, triggerType)) <==> s.version == TRNG
    ensures (FmvNg in GetTargetTypeRange(s, triggerType)) <==> s.version == TRNG
    ensures (TimerfieldNg in GetTargetTypeRange(s, triggerType)) <==> s.version == TRNG
    ensures (LuaScript in GetTargetTypeRange(s, triggerType)) <==> s.version == TombEngine
  {
    forall t | t in BaseTargetTypes
      ensures !t.ParameterNg? && !t.FlyByCamera? && !t.ActionNg? && !t.FmvNg? && !t.TimerfieldNg? && !t.LuaScript?
    {
    }
    var r := GetTargetTypeRange(s, triggerType);
    assert forall t :: t in r <==> t in BaseTargetTypes || t in ExtraTargetTypes(s);
  }

  /** The catalogue entry a ushort parameter names, if any. */
  function Entry(list: map<nat, NgSubtype>, p: Param): W.Option<NgSubtype> {
    if p.UShortParam? && p.key in list then W.Some(list[p.key]) else W.None
  }

  const EmptyRange: ParameterRange := Kind(Empty)

  function GetTargetRange(s: LevelSettings, cat: NgCatalog, triggerType: TriggerType, targetType: TriggerTargetType, timer: Param): ParameterRange {
    if triggerType == ConditionNg then
      var e := Entry(cat.conditions, timer);
      if e.Some? then e.value.target else EmptyRange
    else
      match targetType
      case Object => Kind(MoveablesInLevel)
      case Camera => Kind(CamerasInLevel)
      case Sink => Kind(SinksInLevel)
      case Target => Kind(MoveablesInLevel)
      case FlyByCamera => Kind(FlybyCamerasInLevel)
      case FlipEffect =>
        if s.version == TRNG then Listed(cat.flipEffects.Keys)
        else if s.version == TR4 then
          Listed(set k | k in cat.flipEffects && ContainsSubstring(cat.flipEffects[k].name, "OldFlip"))
        else Kind(AnyNumber)
      case ActionNg =>
        var e := Entry(cat.actions, timer);
        if e.Some? then e.value.target else EmptyRange
      case TimerfieldNg => cat.timerField
      case LuaScript => if s.version == TombEngine then Kind(LuaFunctions) else Kind(AnyNumber)
      case _ => Kind(AnyNumber)
  }

  function GetTimerRange(cat: NgCatalog, triggerType: TriggerType, targetType: TriggerTargetType, target: Param): ParameterRange {
    if triggerType == ConditionNg then Listed(cat.conditions.Keys)
    else
      match targetType
      case FlipEffect =>
        var e := Entry(cat.flipEffects, target);
        if e.Some? then e.value.timer else EmptyRange
      case ActionNg => Listed(cat.actions.Keys)
      case TimerfieldNg => EmptyRange
      case _ => Kind(AnyNumber)
  }

  function GetExtraRange(cat: NgCatalog, triggerType: TriggerType, targetType: TriggerTargetType, target: Param, timer: Param): ParameterRange {
    if triggerType == ConditionNg then
      var e := Entry(cat.conditions, timer);
      if e.Some? then e.value.extra else EmptyRange
    else
      match targetType
      case FlipEffect =>
        var e := Entry(cat.flipEffects, target);
        if e.Some? then e.value.extra else EmptyRange
      case ActionNg =>
        var e := Entry(cat.actions, timer);
        if e.Some? then e.value.extra else EmptyRange
      case _ => EmptyRange
  }

  /** TriggerIsValid: both types are offered, and each parameter matches its range. */
  predicate TriggerIsValid(s: LevelSettings, cat: NgCatalog, matches: (ParameterRange, Param) -> bool, t: TriggerInstance) {
    && t.triggerType in GetTriggerTypeRange(s)
    && t.targetType in GetTargetTypeRange(s, t.triggerType)
    && matches(GetTargetRange(s, cat, t.triggerType, t.targetType, t.timer), t.target)
    && matches(GetTimerRange(cat, t.triggerType, t.targetType, t.target), t.timer)
    && matches(GetExtraRange(cat, t.triggerType, t.targetType, t.target, t.timer), t.extra)
  }

  /** A valid condition trigger exists only in TRNG levels, and always targets an NG parameter. */
  lemma ValidConditionIsTRNG(s: LevelSettings, cat: NgCatalog, matches: (ParameterRange, Param) -> bool, t: TriggerInstance)
    requires TriggerIsValid(s, cat, matches, t) && t.triggerType == ConditionNg
    ensures s.version == TRNG && t.targetType == ParameterNg
  {
    TriggerTypeRangeMembers(s);
  }

  /** A valid trigger with an NG target is an ordinary (non-condition) trigger of a TRNG level. */
  lemma ValidNgTargetIsTRNG(s: LevelSettings, cat: NgCatalog, matches: (ParameterRange, Param) -> bool, t: TriggerInstance)
    requires TriggerIsValid(s, cat, matches, t)
    requires t.targetType == ActionNg || t.targetType == FmvNg || t.targetType == TimerfieldNg
    ensures s.version == TRNG && t.triggerType != ConditionNg
  {
    if t.triggerType != ConditionNg {
      TargetTypeRangeMembers(s, t.triggerType);
    }
  }

  /** A valid trigger of a non-TRNG level uses none of the types the TRNG branch withholds or adds. */
  lemma ValidOutsideTRNG(s: LevelSettings, cat: NgCatalog, matches: (ParameterRange, Param) -> bool, t: TriggerInstance)
    requires TriggerIsValid(s, cat, matches, t) && s.version != TRNG
    ensures t.triggerType != ConditionNg && t.targetType != ParameterNg
    ensures t.targetType != ActionNg && t.targetType != FmvNg && t.targetType != TimerfieldNg
  {
    TriggerTypeRangeMembers(s);
    TargetTypeRangeMembers(s, t.triggerType);
  }

  /** (ushort)(timer | extra << 8): the two values packed as low and high byte. */
  function PackBytes(timer: UShort, extra: UShort): UShort {
    BitOr(timer, extra * 256) % 0x1_0000
  }

  lemma PackBytesIsSum(timer: UShort, extra: UShort)
    requires timer < 256 && extra < 256
    ensures PackBytes(timer, extra) == timer + 256 * extra
  {
    Pow2Byte();
    BitOrDisjoint(timer, extra, 8);
  }

  /** A callback asked for a value no larger than its argument. */
  type BoundedValueCallback = UShort -> UShort

  function EncodeNGRealTimer(
    cat: NgCatalog, targetType: TriggerTargetType, triggerType: TriggerType, target: UShort,
    upperBound: UShort, timer: BoundedValueCallback, extra: BoundedValueCallback): UShort
  {
    var timerUpperBound := upperBound % 256;
    var extraUpperBound := upperBound / 256;
    if triggerType == ConditionNg then
      // bit 8 of the trigger setup is the one-shot flag, so the extra starts at bit 9
      BitOr(timer(timerUpperBound), extra(extraUpperBound) * 512) % 0x1_0000
    else
      match targetType
      case ActionNg => PackBytes(timer(timerUpperBound), extra(extraUpperBound))
      case TimerfieldNg => timer(upperBound)
      case FlipEffect =>
        if target in cat.flipEffects && cat.flipEffects[target].extraIsEmpty then timer(upperBound)
        else PackBytes(timer(timerUpperBound), extra(extraUpperBound))
      case _ => timer(upperBound)
  }

  datatype Decoded = Decoded(timer: UShort, extra: W.Option<UShort>)

  function DecodeNGRealTimer(
    cat: NgCatalog, targetType: TriggerTargetType, triggerType: TriggerType, target: UShort,
    realTimer: UShort, triggerFlags: Short): (d: Decoded)
    ensures triggerType == ConditionNg ==> d.timer < 256 && (d.extra.Some? ==> d.extra.value < 32)
    ensures triggerType != ConditionNg && targetType == ActionNg ==>
      d.timer < 256 && (d.extra.Some? ==> d.timer + 256 * d.extra.value == realTimer)
    ensures triggerType != ConditionNg && targetType == FlipEffect ==>
      (d.extra.None? ==> d.timer == realTimer) && (d.extra.Some? ==> d.timer + 256 * d.extra.value == realTimer)
    ensures triggerType != ConditionNg && targetType != ActionNg && targetType != FlipEffect ==>
      d == Decoded(realTimer, W.None)
  {
    if triggerType == ConditionNg then
      var t := realTimer % 256;
      if t in cat.conditions && cat.conditions[t].extraIsEmpty then Decoded(t, W.None)
      else
        // ~(triggerFlags >> 1) & 0x1f: bits 1 to 5 of the flags, inverted
        Decoded(t, W.Some(31 - (triggerFlags / 2) % 32))
    else
      match targetType
      case ActionNg =>
        var t := realTimer % 256;
        if t in cat.actions && cat.actions[t].extraIsEmpty then Decoded(t, W.None)
        else Decoded(t, W.Some(realTimer / 256))
      case TimerfieldNg => Decoded(realTimer, W.None)
      case FlipEffect =>
        if target in cat.flipEffects && cat.flipEffects[target].extraIsEmpty then Decoded(realTimer, W.None)
        else Decoded(realTimer % 256, W.Some(realTimer / 256))
      case _ => Decoded(realTimer, W.None)
  }

  /**
   * For an action or a flip effect with an extra, decoding what the encoder
   * packed gives back the timer and the extra, provided each fits in a byte.
   */
  lemma DecodeEncodeRoundTrip(
    cat: NgCatalog, targetType: TriggerTargetType, triggerType: TriggerType, target: UShort,
    upperBound: UShort, timer: BoundedValueCallback, extra: BoundedValueCallback, triggerFlags: Short)
    requires triggerType != ConditionNg && (targetType == ActionNg || targetType == FlipEffect)
    requires timer(upperBound % 256) < 256 && extra(upperBound / 256) < 256
    requires targetType == ActionNg ==>
      !(timer(upperBound % 256) in cat.actions && cat.actions[timer(upperBound % 256)].extraIsEmpty)
    requires targetType == FlipEffect ==> !(target in cat.flipEffects && cat.flipEffects[target].extraIsEmpty)
    ensures DecodeNGRealTimer(cat, targetType, triggerType, target,
              EncodeNGRealTimer(cat, targetType, triggerType, target, upperBound, timer, extra), triggerFlags)
            == Decoded(timer(upperBound % 256), W.Some(extra(upperBound / 256)))
  {
    PackBytesIsSum(timer(upperBound % 256), extra(upperBound / 256));
  }

  /** Where a single value is stored (timer fields, other targets, flip effects without an extra) it comes back whole. */
  lemma DecodeEncodeSingleValue(
    cat: NgCatalog, targetType: TriggerTargetType, triggerType: TriggerType, target: UShort,
    upperBound: UShort, timer: BoundedValueCallback, extra: BoundedValueCallback, triggerFlags: Short)
    requires triggerType != ConditionNg && targetType != ActionNg
    requires targetType == FlipEffect ==> target in cat.flipEffects && cat.flipEffects[target].extraIsEmpty
    ensures DecodeNGRealTimer(cat, targetType, triggerType, target,
              EncodeNGRealTimer(cat, targetType, triggerType, target, upperBound, timer, extra), triggerFlags)
            == Decoded(timer(upperBound), W.None)
  {
  }

  /**
   * When each callback keeps to the bound it is given, the packed value of a
   * non-condition trigger never exceeds the upper bound: the timer gets the
   * low byte of the bound and the extra the high byte.
   */
  lemma EncodeWithinUpperBound(
    cat: NgCatalog, targetType: TriggerTargetType, triggerType: TriggerType, target: UShort,
    upperBound: UShort, timer: BoundedValueCallback, extra: BoundedValueCallback)
    requires triggerType != ConditionNg
    requires forall b: UShort :: timer(b) <= b
    requires forall b: UShort :: extra(b) <= b
    ensures EncodeNGRealTimer(cat, targetType, triggerType, target, upperBound, timer, extra) <= upperBound
  {
    var t := timer(upperBound % 256);
    var e := extra(upperBound / 256);
    if targetType == ActionNg || targetType == FlipEffect {
      assert t < 256 && e < 256;
      PackBytesIsSum(t, e);
      assert 256 * e <= 256 * (upperBound / 256);
    }
  }

  /**
   * A condition trigger's decoded extra comes from the trigger flags, not from
   * the packed value: two packed values with the same low byte decode alike,
   * so the extra the encoder shifted in is not read back.
   */
  lemma ConditionDecodeIgnoresHighByte(
    cat: NgCatalog, targetType: TriggerTargetType, target: UShort, r1: UShort, r2: UShort, triggerFlags: Short)
    requires r1 % 256 == r2 % 256
    ensures DecodeNGRealTimer(cat, targetType, ConditionNg, target, r1, triggerFlags)
         == DecodeNGRealTimer(cat, targetType, ConditionNg, target, r2, triggerFlags)
  {
  }

  /** The exceptions the export path can raise. */
  datatype ExportError =
    | InvalidTrigger        // "Trigger is invalid."
    | KeyNotFound           // a catalogue main list has no entry for the id
    | ScriptIdMissing       // ExceptionScriptIdMissing
    | Overflow              // a checked ushort conversion overflowed
    | InvalidParameter      // "Trigger parameter of invalid type!"
    | ScriptNotSupported    // ExceptionScriptNotSupported

  /** The position of the first occurrence of room in rooms, or -1. */
  function RoomIndex(rooms: seq<nat>, room: nat): (i: int)
    ensures room !in rooms ==> i == -1
    ensures room in rooms ==> 0 <= i < |rooms| && rooms[i] == room && room !in rooms[..i]
  {
    if rooms == [] then -1
    else if rooms[0] == room then 0
    else
      var j := RoomIndex(rooms[1..], room);
      if j == -1 then -1
      else
        assert rooms[..j + 1] == [rooms[0]] + rooms[1..][..j];
        j + 1
  }

  /**
   * The ushort a trigger parameter is written as: 0 for null, the key of a raw
   * ushort, the script id of an object (checked), or the unchecked ushort of a
   * room's position in the rearranged room list.
   */
  function ParamValue(rooms: seq<nat>, p: Param): (r: W.Result<UShort, ExportError>)
    ensures r.Failure? <==> (
      || p.OtherParam?
      || (p.ObjectParam? && (!p.hasScriptId || p.scriptId.None? || p.scriptId.value > 0xFFFF)))
    ensures p.NoParam? ==> r == W.Success(0)
    ensures p.RoomParam? && p.room !in rooms ==> r == W.Success(0xFFFF)
    ensures p.RoomParam? && p.room in rooms && |rooms| <= 0x1_0000 ==> r == W.Success(RoomIndex(rooms, p.room))
  {
    match p
    case NoParam => W.Success(0)
    case UShortParam(key) => W.Success(key)
    case ObjectParam(hasScriptId, scriptId, _) =>
      if !hasScriptId then W.Failure(InvalidParameter)
      else if scriptId.None? then W.Failure(ScriptIdMissing)
      else if scriptId.value > 0xFFFF then W.Failure(Overflow)
      else W.Success(scriptId.value)
    case RoomParam(room) =>
      var i := RoomIndex(rooms, room);
      assert |rooms| <= 0x1_0000 && room in rooms ==> i % 0x1_0000 == i;
      W.Success(i % 0x1_0000)
    case OtherParam => W.Failure(InvalidParameter)
  }

  /** NgParameterInfo.GetValue. */
  method GetValue(rooms: seq<nat>, p: Param) returns (r: W.Result<UShort, ExportError>)
    ensures r == ParamValue(rooms, p)
  {
    match p {
      case NoParam => return W.Success(0);
      case UShortParam(key) => return W.Success(key);
      case ObjectParam(hasScriptId, scriptId, _) =>
        if !hasScriptId {
          return W.Failure(InvalidParameter);
        }
        if scriptId.None? {
          return W.Failure(ScriptIdMissing);
        }
        if scriptId.value > 0xFFFF {
          return W.Failure(Overflow);
        }
        return W.Success(scriptId.value);
      case RoomParam(room) =>
        var index := EditorUtils.ReferenceIndexOf(rooms, W.Some(room));
        if room in rooms {
          NotInPrefix(rooms, room, index);
          NotInPrefix(rooms, room, RoomIndex(rooms, room));
        }
        return W.Success(index % 0x1_0000);
      case OtherParam => return W.Failure(InvalidParameter);
    }
  }

  lemma NotInPrefix(rooms: seq<nat>, room: nat, i: nat)
    requires i <= |rooms| && room !in rooms[..i]
    ensures forall k :: 0 <= k < i ==> rooms[k] != room
  {
    forall k | 0 <= k < i
      ensures rooms[k] != room
    {
      assert rooms[..i][k] == rooms[k];
    }
  }

  /** The OR of two ushorts is a ushort. */
  function Or16(a: UShort, b: UShort): (r: UShort)
    ensures a == 0 ==> r == b
  {
    Pow2Short();
    BitOrBound(a, b, 16);
    BitOr(a, b)
  }

  /** The anim-command flag of the mask: 0x8000 with the command number, 0xFF for a negative one, else at most 254. */
  function AnimMask(anim: W.Option<int>): (m: UShort)
    ensures anim.None? ==> m == 0
    ensures anim.Some? ==> m == 0x8000 + (if anim.value < 0 then 0xFF else EditorUtils.Min(anim.value, 254))
  {
    if anim.None? then 0
    else
      var low: UShort := if anim.value < 0 then 0xFF else EditorUtils.Min(anim.value, 254);
      Pow2Byte();
      BitOrDisjoint(low, 0x80, 8);
      assert 0x80 * Pow2(8) == 0x8000;
      BitOrCommutes(low, 0x8000);
      Or16(0x8000, low)
  }

  /**
   * secondValue |= (ushort)(GetValue(extra) << 8) when the catalogue entry has
   * an extra, inside the export's checked context: an extra above 255 overflows.
   */
  function WithExtra(rooms: seq<nat>, extra: Param, second: UShort, extraIsEmpty: bool): (r: W.Result<UShort, ExportError>)
    ensures extraIsEmpty ==> r == W.Success(second)
    ensures !extraIsEmpty && ParamValue(rooms, extra).Success? && ParamValue(rooms, extra).value < 256 && second < 256 ==>
      r == W.Success(second + 256 * ParamValue(rooms, extra).value)
    ensures !extraIsEmpty && ParamValue(rooms, extra).Success? && ParamValue(rooms, extra).value >= 256 ==>
      r == W.Failure(Overflow)
  {
    if extraIsEmpty then W.Success(second)
    else
      match ParamValue(rooms, extra)
      case Failure(e) => W.Failure(e)
      case Success(x) =>
        if x * 256 > 0xFFFF then W.Failure(Overflow)
        else if second < 256 then
          Pow2Byte();
          BitOrDisjoint(second, x, 8);
          W.Success(Or16(second, x * 256))
        else W.Success(Or16(second, x * 256))
  }

  /** The (mask, first, second) triple ExportToScriptTrigger assembles, or the exception it throws on the way. */
  function ExportOperands(
    s: LevelSettings, cat: NgCatalog, matches: (ParameterRange, Param) -> bool, rooms: seq<nat>,
    t: TriggerInstance, anim: W.Option<int>): W.Result<(UShort, UShort, UShort), ExportError>
  {
    var mask := AnimMask(anim);
    if t.triggerType == ConditionNg then
      if !TriggerIsValid(s, cat, matches, t) || anim.Some? then W.Failure(InvalidTrigger)
      else
        match ParamValue(rooms, t.timer)
        case Failure(e) => W.Failure(e)
        case Success(id) =>
          if id !in cat.conditions then W.Failure(KeyNotFound)
          else
            var mask' := Or16(mask, if t.target.ObjectParam? then 0x9000 else 0x8000);
            match ParamValue(rooms, t.target)
            case Failure(e) => W.Failure(e)
            case Success(first) =>
              match WithExtra(rooms, t.extra, id, cat.conditions[id].extraIsEmpty)
              case Failure(e) => W.Failure(e)
              case Success(second) => W.Success((mask', first, second))
    else if t.targetType == FlipEffect then
      if !TriggerIsValid(s, cat, matches, t) then W.Failure(InvalidTrigger)
      else
        match ParamValue(rooms, t.target)
        case Failure(e) => W.Failure(e)
        case Success(id) =>
          if id !in cat.flipEffects then W.Failure(KeyNotFound)
          else
            var mask' := Or16(mask, 0x2000);
            match ParamValue(rooms, t.timer)
            case Failure(e) => W.Failure(e)
            case Success(timer) =>
              match WithExtra(rooms, t.extra, timer, cat.flipEffects[id].extraIsEmpty)
              case Failure(e) => W.Failure(e)
              case Success(second) => W.Success((mask', id, second))
    else if t.targetType == ActionNg then
      if !TriggerIsValid(s, cat, matches, t) then W.Failure(InvalidTrigger)
      else
        match ParamValue(rooms, t.timer)
        case Failure(e) => W.Failure(e)
        case Success(id) =>
          if id !in cat.actions then W.Failure(KeyNotFound)
          else
            var mask' := Or16(mask, if t.target.ObjectParam? && t.target.isStatic then 0x4000 else 0x5000);
            match ParamValue(rooms, t.target)
            case Failure(e) => W.Failure(e)
            case Success(first) =>
              match WithExtra(rooms, t.extra, id, cat.actions[id].extraIsEmpty)
              case Failure(e) => W.Failure(e)
              case Success(second) => W.Success((mask', first, second))
    else
      W.Success((mask, 0, 0))
  }

  /** unchecked((short)mask). */
  function AsShort(x: UShort): Short {
    if x >= 0x8000 then x - 0x1_0000 else x
  }

  /**
   * The script text of the three numbers: "mask ,first ,second" with the mask
   * as a signed short for an anim command, "$MASK,first,$SECOND" in
   * upper-case hexadecimal otherwise.
   */
  function ScriptText(mask: UShort, first: UShort, second: UShort, animCommand: bool): string {
    if animCommand then
      IntToString(AsShort(mask)) + " ," + NatToString(first) + " ," + NatToString(second)
    else
      "$" + ToHexX4(mask) + "," + NatToString(first) + ",$" + ToHexX4(second)
  }

  /** ExportToScriptTrigger without the comment header: the text, or the exception. */
  function ExportText(
    s: LevelSettings, cat: NgCatalog, matches: (ParameterRange, Param) -> bool, rooms: seq<nat>,
    t: TriggerInstance, anim: W.Option<int>): W.Result<string, ExportError>
  {
    match ExportOperands(s, cat, matches, rooms, t, anim)
    case Failure(e) => W.Failure(e)
    case Success(ops) =>
      if ops.0 != 0 then W.Success(ScriptText(ops.0, ops.1, ops.2, anim.Some?))
      else W.Failure(ScriptNotSupported)
  }

  /** secondValue |= (ushort)(GetValue(level, trigger.Extra) << 8), when the entry has an extra. */
  method SpliceExtra(rooms: seq<nat>, extra: Param, second: UShort, extraIsEmpty: bool) returns (r: W.Result<UShort, ExportError>)
    ensures r == WithExtra(rooms, extra, second, extraIsEmpty)
  {
    var secondValue := second;
    if !extraIsEmpty {
      var value := GetValue(rooms, extra);
      if value.Failure? {
        return W.Failure(value.error);
      }
      if (value.value as int) * 256 > 0xFFFF {
        return W.Failure(Overflow);
      }
      secondValue := Or16(secondValue, value.value * 256);
    }
    return W.Success(secondValue);
  }

  /**
   * NgParameterInfo.ExportToScriptTrigger without the optional comment header:
   * the mask, the first and the second value are built up step by step, and
   * the text is produced only when the mask is not zero.
   */
  method ExportToScriptTrigger(
    s: LevelSettings, cat: NgCatalog, matches: (ParameterRange, Param) -> bool, rooms: seq<nat>,
    t: TriggerInstance, anim: W.Option<int>) returns (r: W.Result<string, ExportError>)
    ensures r == ExportText(s, cat, matches, rooms, t, anim)
  {
    var mask: UShort := 0;
    var firstValue: UShort := 0;
    var secondValue: UShort := 0;
    if anim.Some? {
      mask := Or16(mask, 0x8000);
      if anim.value < 0 {
        mask := Or16(mask, 0xFF);
      } else {
        mask := Or16(mask, EditorUtils.Min(anim.value, 254));
      }
    }
    assert mask == AnimMask(anim);

    if t.triggerType == ConditionNg {
      if !TriggerIsValid(s, cat, matches, t) || anim.Some? {
        return W.Failure(InvalidTrigger);
      }
      var conditionId := GetValue(rooms, t.timer);
      if conditionId.Failure? {
        return W.Failure(conditionId.error);
      }
      if conditionId.value !in cat.conditions {
        return W.Failure(KeyNotFound);
      }
      mask := Or16(mask, if t.target.ObjectParam? then 0x9000 else 0x8000);
      var first := GetValue(rooms, t.target);
      if first.Failure? {
        return W.Failure(first.error);
      }
      firstValue := first.value;
      var second := SpliceExtra(rooms, t.extra, conditionId.value, cat.conditions[conditionId.value].extraIsEmpty);
      if second.Failure? {
        return W.Failure(second.error);
      }
      secondValue := second.value;
    } else if t.targetType == FlipEffect {
      if !TriggerIsValid(s, cat, matches, t) {
        return W.Failure(InvalidTrigger);
      }
      var flipeffectId := GetValue(rooms, t.target);
      if flipeffectId.Failure? {
        return W.Failure(flipeffectId.error);
      }
      if flipeffectId.value !in cat.flipEffects {
        return W.Failure(KeyNotFound);
      }
      mask := Or16(mask, 0x2000);
      firstValue := flipeffectId.value;
      var timer := GetValue(rooms, t.timer);
      if timer.Failure? {
        return W.Failure(timer.error);
      }
      var second := SpliceExtra(rooms, t.extra, timer.value, cat.flipEffects[flipeffectId.value].extraIsEmpty);
      if second.Failure? {
        return W.Failure(second.error);
      }
      secondValue := second.value;
    } else if t.targetType == ActionNg {
      if !TriggerIsValid(s, cat, matches, t) {
        return W.Failure(InvalidTrigger);
      }
      var actionId := GetValue(rooms, t.timer);
      if actionId.Failure? {
        return W.Failure(actionId.error);
      }
      if actionId.value !in cat.actions {
        return W.Failure(KeyNotFound);
      }
      mask := Or16(mask, if t.target.ObjectParam? && t.target.isStatic then 0x4000 else 0x5000);
      var first := GetValue(rooms, t.target);
      if first.Failure? {
        return W.Failure(first.error);
      }
      firstValue := first.value;
      var second := SpliceExtra(rooms, t.extra, actionId.value, cat.actions[actionId.value].extraIsEmpty);
      if second.Failure? {
        return W.Failure(second.error);
      }
      secondValue := second.value;
    }

    if mask != 0 {
      return W.Success(ScriptText(mask, firstValue, secondValue, anim.Some?));
    }
    return W.Failure(ScriptNotSupported);
  }

  /** A trigger read back from script text, before its parameters are linked to level objects. */
  datatype ImportedTrigger = ImportedTrigger(
    triggerType: TriggerType,
    targetType: TriggerTargetType,
    target: UShort,
    timer: UShort,
    extra: W.Option<UShort>)

  function TrimEach(parts: seq<string>, c: char): (r: seq<string>)
    ensures |r| == |parts|
    ensures forall i :: 0 <= i < |parts| ==> r[i] == Trim(parts[i], c)
  {
    if parts == [] then [] else [Trim(parts[0], c)] + TrimEach(parts[1..], c)
  }

  /** script.Split(',') with every token trimmed of spaces. */
  function ScriptTokens(script: string): seq<string> {
    TrimEach(Split(script, ','), ' ')
  }

  /** One operand: "$" and hexadecimal digits, or else a decimal ushort. */
  function ParseOperand(token: string): W.Option<UShort> {
    var hex := ParseUShortHex(Trim(token, '$'));
    if "$" <= token && hex.Some? then W.Some(hex.value)
    else
      var dec := ParseUShort(token);
      if dec.Some? then W.Some(dec.value) else W.None
  }

  /** The operands of the first n tokens, or null as soon as one of them does not parse. */
  function ParsePrefix(tokens: seq<string>, n: nat): (r: W.Option<seq<UShort>>)
    requires n <= |tokens|
    ensures r.Some? ==> |r.value| == n
  {
    if n == 0 then W.Some([])
    else
      match ParsePrefix(tokens, n - 1)
      case None => W.None
      case Some(vs) =>
        var v := ParseOperand(tokens[n - 1]);
        if v.None? then W.None else W.Some(vs + [v.value])
  }

  /** Once a token fails to parse, every longer prefix fails too. */
  lemma {:induction false} ParsePrefixStaysNone(tokens: seq<string>, i: nat, n: nat)
    requires i <= n <= |tokens| && ParsePrefix(tokens, i).None?
    ensures ParsePrefix(tokens, n).None?
    decreases n - i
  {
    if i < n {
      ParsePrefixStaysNone(tokens, i + 1, n);
    }
  }

  /** The three operands of a script trigger, if there are exactly three tokens and each parses. */
  function ScriptOperands(script: string): W.Option<(UShort, UShort, UShort)> {
    var tokens := ScriptTokens(script);
    if |tokens| != 3 then W.None
    else
      match ParsePrefix(tokens, 3)
      case None => W.None
      case Some(vs) => W.Some((vs[0], vs[1], vs[2]))
  }

  /** The third operand is the raw timer, or, when the entry has an extra, the timer in its low byte and the extra in its high byte. */
  function Splice(triggerType: TriggerType, targetType: TriggerTargetType, op1: UShort, op2: UShort, decode: bool): (r: ImportedTrigger)
    ensures r.target == op1
    ensures r.extra.None? <==> !decode
    ensures r.extra.None? ==> r.timer == op2
    ensures r.extra.Some? ==> r.timer < 256 && r.timer + 256 * r.extra.value == op2
  {
    if decode then ImportedTrigger(triggerType, targetType, op1, op2 % 256, W.Some(op2 / 256))
    else ImportedTrigger(triggerType, targetType, op1, op2, W.None)
  }

  /** The trigger the first operand selects, or null for an unknown first operand or a missing catalogue entry. */
  function Classify(cat: NgCatalog, ops: (UShort, UShort, UShort)): (r: W.Option<ImportedTrigger>)
    ensures r.Some? ==> ops.0 in {0x8000, 0x9000, 0x2000, 0x4000, 0x5000}
    ensures r.Some? ==> r.value.target == ops.1
    ensures r.Some? ==> (r.value.triggerType == ConditionNg <==> ops.0 == 0x8000 || ops.0 == 0x9000)
    ensures (ops.0 == 0x8000 || ops.0 == 0x9000) ==> (r.Some? <==> ops.2 % 256 in cat.conditions)
    ensures ops.0 == 0x2000 ==> (r.Some? <==> ops.1 in cat.flipEffects)
    ensures (ops.0 == 0x4000 || ops.0 == 0x5000) ==> (r.Some? <==> ops.2 % 256 in cat.actions)
  {
    var (op0, op1, op2) := ops;
    if op0 == 0x8000 || op0 == 0x9000 then
      var key := op2 % 256;
      if key !in cat.conditions then W.None
      else W.Some(Splice(ConditionNg, ParameterNg, op1, op2, !cat.conditions[key].extraIsEmpty))
    else if op0 == 0x2000 then
      if op1 !in cat.flipEffects then W.None
      else W.Some(Splice(Trigger, FlipEffect, op1, op2, !cat.flipEffects[op1].extraIsEmpty))
    else if op0 == 0x4000 || op0 == 0x5000 then
      var key := op2 % 256;
      if key !in cat.actions then W.None
      else W.Some(Splice(Trigger, ActionNg, op1, op2, !cat.actions[key].extraIsEmpty))
    else W.None
  }

  /** ImportFromScriptTrigger up to the linking of parameters: the trigger, or null. */
  function ImportScript(cat: NgCatalog, script: string): (r: W.Option<ImportedTrigger>)
    ensures r.Some? ==> |ScriptTokens(script)| == 3 && ScriptOperands(script).Some?
    ensures r.Some? ==> ScriptOperands(script).value.0 in {0x8000, 0x9000, 0x2000, 0x4000, 0x5000}
  {
    match ScriptOperands(script)
    case None => W.None
    case Some(ops) => Classify(cat, ops)
  }

  /** One pass of the parsing loop: the hexadecimal form after "$", else the decimal form. */
  method ParseToken(token: string) returns (r: W.Option<UShort>)
    ensures r == ParseOperand(token)
  {
    if "$" <= token {
      var hex := ParseUShortHex(Trim(token, '$'));
      if hex.Some? {
        return W.Some(hex.value);
      }
    }
    var dec := ParseUShort(token);
    if dec.None? {
      return W.None;
    }
    return W.Some(dec.value);
  }

  /** NgParameterInfo.ImportFromScriptTrigger: the operands are parsed into an array in a loop, then classified. */
  method ImportFromScriptTrigger(cat: NgCatalog, script: string) returns (r: W.Option<ImportedTrigger>)
    ensures r == ImportScript(cat, script)
  {
    var tokens := ScriptTokens(script);
    if |tokens| != 3 {
      return W.None;
    }
    var operands := new UShort[|tokens|];
    ghost var parsed: seq<UShort> := [];
    var i := 0;
    while i < |tokens|
      invariant 0 <= i <= |tokens|
      invariant ParsePrefix(tokens, i) == W.Some(parsed) && operands[..i] == parsed
    {
      var operand := ParseToken(tokens[i]);
      if operand.None? {
        ParsePrefixStaysNone(tokens, i + 1, |tokens|);
        return W.None;
      }
      operands[i] := operand.value;
      parsed := parsed + [operand.value];
      i := i + 1;
    }
    assert operands[..3] == parsed;
    var ops := (operands[0], operands[1], operands[2]);
    assert ScriptOperands(script) == W.Some(ops);
    r := Classify(cat, ops);
  }

  lemma HexHasNoSeparator(h: string)
    requires AllHexDigits(h)
    ensures ',' !in h && ' ' !in h && '$' !in h && '-' !in h
  {
    forall i | 0 <= i < |h|
      ensures h[i] != ',' && h[i] != ' ' && h[i] != '$' && h[i] != '-'
    {
      assert IsHexDigit(h[i]);
    }
  }

  lemma DigitsHaveNoSeparator(d: string)
    requires AllDigits(d)
    ensures ',' !in d && ' ' !in d && '$' !in d && '-' !in d
  {
    forall i | 0 <= i < |d|
      ensures d[i] != ',' && d[i] != ' ' && d[i] != '$' && d[i] != '-'
    {
      assert IsDigit(d[i]);
    }
  }

  /** The three tokens of a three-part script text are its parts, trimmed of spaces. */
  lemma ThreeTokens(p0: string, p1: string, p2: string)
    requires ',' !in p0 && ',' !in p1 && ',' !in p2
    ensures ScriptTokens(p0 + "," + p1 + "," + p2) == [Trim(p0, ' '), Trim(p1, ' '), Trim(p2, ' ')]
  {
    var parts := [p0, p1, p2];
    assert parts[1..] == [p1, p2] && [p1, p2][1..] == [p2];
    assert Join([p2], ',') == p2;
    assert Join([p1, p2], ',') == p1 + [','] + p2;
    assert Join(parts, ',') == p0 + [','] + (p1 + [','] + p2);
    assert p0 + [','] + (p1 + [','] + p2) == p0 + "," + p1 + "," + p2;
    SplitJoin(parts, ',');
  }

  /** The "$" form of a ushort reads back as the same ushort. */
  lemma HexOperandRoundTrip(n: UShort)
    ensures ParseOperand("$" + ToHexX4(n)) == W.Some(n)
  {
    var h := ToHexX4(n);
    HexHasNoSeparator(h);
    assert h[0] in h && h[|h| - 1] in h;
    TrimLeading('$', h);
    ParseUShortHexRoundTrip(n);
  }

  /** The decimal form of a ushort reads back as the same ushort. */
  lemma DecimalOperandRoundTrip(n: UShort)
    ensures ParseOperand(NatToString(n)) == W.Some(n)
  {
    var d := NatToString(n);
    DigitsHaveNoSeparator(d);
    assert d[0] in d;
    ParseUShortRoundTrip(n);
  }

  /** The tokens of the "$MASK,first,$SECOND" text. */
  lemma HexFormTokens(mask: UShort, first: UShort, second: UShort)
    ensures ScriptTokens(ScriptText(mask, first, second, false))
         == ["$" + ToHexX4(mask), NatToString(first), "$" + ToHexX4(second)]
  {
    var p0 := "$" + ToHexX4(mask);
    var p1 := NatToString(first);
    var p2 := "$" + ToHexX4(second);
    HexHasNoSeparator(ToHexX4(mask));
    HexHasNoSeparator(ToHexX4(second));
    DigitsHaveNoSeparator(p1);
    assert ',' !in p0 && ',' !in p2 by {
      assert p0 == ['$'] + ToHexX4(mask) && p2 == ['$'] + ToHexX4(second);
    }
    assert ScriptText(mask, first, second, false) == p0 + "," + p1 + "," + p2;
    ThreeTokens(p0, p1, p2);
    assert p0[|p0| - 1] in ToHexX4(mask) && p2[|p2| - 1] in ToHexX4(second);
    assert p1[0] in p1 && p1[|p1| - 1] in p1;
    TrimUnchanged(p0, ' ');
    TrimUnchanged(p1, ' ');
    TrimUnchanged(p2, ' ');
  }

  /** The "$MASK,first,$SECOND" text reads back as the same three operands. */
  lemma ScriptTextRoundTrip(mask: UShort, first: UShort, second: UShort)
    ensures ScriptOperands(ScriptText(mask, first, second, false)) == W.Some((mask, first, second))
  {
    var tokens := ScriptTokens(ScriptText(mask, first, second, false));
    HexFormTokens(mask, first, second);
    HexOperandRoundTrip(mask);
    DecimalOperandRoundTrip(first);
    HexOperandRoundTrip(second);
    ParseThree(tokens, mask, first, second);
  }

  lemma ParseThree(tokens: seq<string>, a: UShort, b: UShort, c: UShort)
    requires |tokens| == 3
    requires ParseOperand(tokens[0]) == W.Some(a)
    requires ParseOperand(tokens[1]) == W.Some(b)
    requires ParseOperand(tokens[2]) == W.Some(c)
    ensures ParsePrefix(tokens, 3) == W.Some([a, b, c])
  {
    assert ParsePrefix(tokens, 0) == W.Some([]);
    assert [] + [a] == [a] && [a] + [b] == [a, b] && [a, b] + [c] == [a, b, c];
    assert ParsePrefix(tokens, 1) == W.Some([a]);
    assert ParsePrefix(tokens, 2) == W.Some([a, b]);
  }

  /**
   * The anim-command form writes the mask as a negative short, which a
   * ushort parse refuses: that text does not import.
   */
  lemma AnimCommandTextDoesNotImport(cat: NgCatalog, mask: UShort, first: UShort, second: UShort)
    requires mask >= 0x8000
    ensures ScriptOperands(ScriptText(mask, first, second, true)).None?
    ensures ImportScript(cat, ScriptText(mask, first, second, true)).None?
  {
    var n := 0x1_0000 - mask;
    var d0 := NatToString(n);
    var q0 := IntToString(AsShort(mask));
    assert q0 == "-" + d0;
    var p0 := q0 + " ";
    var p1 := NatToString(first) + " ";
    var p2 := NatToString(second);
    DigitsHaveNoSeparator(d0);
    DigitsHaveNoSeparator(NatToString(first));
    DigitsHaveNoSeparator(p2);
    assert ',' !in q0 by {
      assert q0 == ['-'] + d0;
    }
    assert ScriptText(mask, first, second, true) == p0 + "," + p1 + "," + p2;
    ThreeTokens(p0, p1, p2);
    assert d0[|d0| - 1] in d0;
    assert q0[|q0| - 1] == d0[|d0| - 1];
    TrimTrailing(q0, ' ');
    var tokens := ScriptTokens(ScriptText(mask, first, second, true));
    assert tokens[0] == q0;
    TrimNumberWhiteSpaceUnchanged(q0);
    assert q0[1..] == d0;
    DecimalRoundTrip(n);
    assert ParseUShort(q0).None?;
    assert ParseOperand(q0).None?;
    assert ParsePrefix(tokens, 1).None?;
    ParsePrefixStaysNone(tokens, 1, 3);
  }

  lemma ByteSplit(lo: nat, hi: nat)
    requires lo < 256
    ensures (lo + 256 * hi) % 256 == lo && (lo + 256 * hi) / 256 == hi
  {
  }

  /** The third operand of an export splices back into the timer and the extra it was built from. */
  lemma SpliceWithExtra(rooms: seq<nat>, extra: Param, second: UShort, extraIsEmpty: bool, tt: TriggerType, target: TriggerTargetType, op1: UShort)
    requires second < 256 && WithExtra(rooms, extra, second, extraIsEmpty).Success?
    ensures var op2 := WithExtra(rooms, extra, second, extraIsEmpty).value;
      && op2 % 256 == second
      && Splice(tt, target, op1, op2, !extraIsEmpty).timer == second
      && (!extraIsEmpty ==>
            && ParamValue(rooms, extra).Success?
            && Splice(tt, target, op1, op2, !extraIsEmpty).extra == W.Some(ParamValue(rooms, extra).value))
  {
    var op2 := WithExtra(rooms, extra, second, extraIsEmpty).value;
    if !extraIsEmpty {
      ByteSplit(second, ParamValue(rooms, extra).value);
    }
  }

  /**
   * Exporting a trigger without an anim command and importing the text gives
   * back its parameter values: the target's value, the timer's value and,
   * where the catalogue entry has an extra, the extra's value. The import
   * reads the catalogue key from the low byte of the third operand, so the
   * timer's value must fit in a byte.
   */
  lemma ExportImportRoundTrip(
    s: LevelSettings, cat: NgCatalog, matches: (ParameterRange, Param) -> bool, rooms: seq<nat>, t: TriggerInstance)
    requires ExportText(s, cat, matches, rooms, t, W.None).Success?
    requires ParamValue(rooms, t.timer).Success? && ParamValue(rooms, t.timer).value < 256
    ensures Recovers(rooms, t, ImportScript(cat, ExportText(s, cat, matches, rooms, t, W.None).value))
  {
    var ops := ExportOperands(s, cat, matches, rooms, t, W.None).value;
    ScriptTextRoundTrip(ops.0, ops.1, ops.2);
    assert ImportScript(cat, ExportText(s, cat, matches, rooms, t, W.None).value) == Classify(cat, ops);
    if t.triggerType == ConditionNg {
      ConditionRoundTrip(s, cat, matches, rooms, t);
    } else if t.targetType == FlipEffect {
      FlipEffectRoundTrip(s, cat, matches, rooms, t);
    } else {
      ActionRoundTrip(s, cat, matches, rooms, t);
    }
  }

  /**
   * The imported trigger carries the exported one's parameter values: its
   * kind, its target type, the target's and the timer's value and, when it
   * has an extra, the extra's value.
   */
  ghost predicate Recovers(rooms: seq<nat>, t: TriggerInstance, imported: W.Option<ImportedTrigger>) {
    && imported.Some?
    && imported.value.triggerType == (if t.triggerType == ConditionNg then ConditionNg else Trigger)
    && imported.value.targetType == t.targetType
    && ParamValue(rooms, t.target).Success?
    && imported.value.target == ParamValue(rooms, t.target).value
    && ParamValue(rooms, t.timer).Success?
    && imported.value.timer == ParamValue(rooms, t.timer).value
    && (imported.value.extra.Some? ==>
          ParamValue(rooms, t.extra).Success? && imported.value.extra.value == ParamValue(rooms, t.extra).value)
  }

  lemma ConditionRoundTrip(
    s: LevelSettings, cat: NgCatalog, matches: (ParameterRange, Param) -> bool, rooms: seq<nat>, t: TriggerInstance)
    requires t.triggerType == ConditionNg
    requires ExportOperands(s, cat, matches, rooms, t, W.None).Success?
    requires ParamValue(rooms, t.timer).Success? && ParamValue(rooms, t.timer).value < 256
    ensures Recovers(rooms, t, Classify(cat, ExportOperands(s, cat, matches, rooms, t, W.None).value))
  {
    var ops := ExportOperands(s, cat, matches, rooms, t, W.None).value;
    var timer := ParamValue(rooms, t.timer).value;
    ValidConditionIsTRNG(s, cat, matches, t);
    SpliceWithExtra(rooms, t.extra, timer, cat.conditions[timer].extraIsEmpty, ConditionNg, ParameterNg, ops.1);
  }

  lemma FlipEffectRoundTrip(
    s: LevelSettings, cat: NgCatalog, matches: (ParameterRange, Param) -> bool, rooms: seq<nat>, t: TriggerInstance)
    requires t.triggerType != ConditionNg && t.targetType == FlipEffect
    requires ExportOperands(s, cat, matches, rooms, t, W.None).Success?
    requires ParamValue(rooms, t.timer).Success? && ParamValue(rooms, t.timer).value < 256
    ensures Recovers(rooms, t, Classify(cat, ExportOperands(s, cat, matches, rooms, t, W.None).value))
  {
    var ops := ExportOperands(s, cat, matches, rooms, t, W.None).value;
    var timer := ParamValue(rooms, t.timer).value;
    var id := ParamValue(rooms, t.target).value;
    SpliceWithExtra(rooms, t.extra, timer, cat.flipEffects[id].extraIsEmpty, Trigger, FlipEffect, ops.1);
  }

  lemma ActionRoundTrip(
    s: LevelSettings, cat: NgCatalog, matches: (ParameterRange, Param) -> bool, rooms: seq<nat>, t: TriggerInstance)
    requires t.triggerType != ConditionNg && t.targetType != FlipEffect
    requires ExportText(s, cat, matches, rooms, t, W.None).Success?
    requires ParamValue(rooms, t.timer).Success? && ParamValue(rooms, t.timer).value < 256
    ensures Recovers(rooms, t, Classify(cat, ExportOperands(s, cat, matches, rooms, t, W.None).value))
  {
    var ops := ExportOperands(s, cat, matches, rooms, t, W.None).value;
    var timer := ParamValue(rooms, t.timer).value;
    SpliceWithExtra(rooms, t.extra, timer, cat.actions[timer].extraIsEmpty, Trigger, ActionNg, ops.1);
  }

  /**
   * The export's refusals: a condition trigger cannot be an anim command, and
   * a trigger with no NG target has nothing to write unless it is an anim
   * command, in which case only the mask is written, with zero values.
   */
  lemma ExportRefusals(
    s: LevelSettings, cat: NgCatalog, matches: (ParameterRange, Param) -> bool, rooms: seq<nat>,
    t: TriggerInstance, anim: W.Option<int>)
    ensures t.triggerType == ConditionNg && anim.Some? ==>
      ExportText(s, cat, matches, rooms, t, anim) == W.Failure(InvalidTrigger)
    ensures t.triggerType != ConditionNg && t.targetType != FlipEffect && t.targetType != ActionNg && anim.None? ==>
      ExportText(s, cat, matches, rooms, t, anim) == W.Failure(ScriptNotSupported)
    ensures t.triggerType != ConditionNg && t.targetType != FlipEffect && t.targetType != ActionNg && anim.Some? ==>
      ExportText(s, cat, matches, rooms, t, anim) == W.Success(ScriptText(AnimMask(anim), 0, 0, true))
  {
  }
}
