/**
 * TrCatalog: the per-game tables of moveables, statics, sprite sequences,
 * sounds, animations and states, and the lookups over them with their default
 * fallbacks. The static Games dictionary is a parameter: a sequence of
 * (version, game) pairs in insertion order, which is the order the dictionary
 * enumerates them in. A SortedList is a sequence of (key, value) pairs.
 */
module TrCatalog {
  import W = Wrappers
  import B = Bits
  import opened Text

  datatype WadGameVersion = TR1 | TR2 | TR3 | TR4_TRNG | TR5 | TR5Main | UnknownVersion(code: int)

  datatype CatalogError = ArgumentOutOfRange | KeyNotFound

  datatype Item = Item(name: string, description: string, skinId: nat, aiObject: bool)

  datatype ItemSound = ItemSound(name: string, description: string, fixedByDefault: bool)

  datatype ItemAnimation = ItemAnimation(item: nat, animation: nat, name: string)

  datatype ItemState = ItemState(item: nat, state: nat, name: string)

  datatype Game = Game(
    version: WadGameVersion,
    moveables: seq<(nat, Item)>,
    spriteSequences: seq<(nat, Item)>,
    statics: seq<(nat, Item)>,
    sounds: seq<(nat, ItemSound)>,
    animations: seq<ItemAnimation>,
    states: seq<ItemState>)

  type Catalog = seq<(WadGameVersion, Game)>

  /** A SortedList: keys strictly ascending. */
  predicate StrictlySorted<V>(s: seq<(nat, V)>) {
    forall i, j :: 0 <= i < j < |s| ==> s[i].0 < s[j].0
  }

  /** A Dictionary: no version twice. */
  predicate DistinctVersions(c: Catalog) {
    forall i, j :: 0 <= i < j < |c| ==> c[i].0 != c[j].0
  }

  /** SortedList.TryGetValue, and Dictionary.TryGetValue on the game table: the value of the first entry with that key. */
  function Lookup<K(==), V>(s: seq<(K, V)>, key: K): (r: W.Option<V>)
    ensures r.Some? ==> (key, r.value) in s
    ensures r.None? ==> forall i :: 0 <= i < |s| ==> s[i].0 != key
  {
    if s == [] then W.None
    else if s[0].0 == key then W.Some(s[0].1)
    else Lookup(s[1..], key)
  }

  /** In a sorted list every stored pair is found by its key. */
  lemma {:induction false} LookupFindsStored<V>(s: seq<(nat, V)>, key: nat, v: V)
    requires StrictlySorted(s)
    requires (key, v) in s
    ensures Lookup(s, key) == W.Some(v)
  {
    if s[0] != (key, v) {
      var k :| 0 <= k < |s| && s[k] == (key, v);
      assert k > 0;
      assert s[1..][k - 1] == (key, v);
      LookupFindsStored(s[1..], key, v);
    }
  }

  /** In a dictionary with distinct versions every stored game is found by its version. */
  lemma {:induction false} GameFoundByVersion(c: Catalog, version: WadGameVersion, g: Game)
    requires DistinctVersions(c)
    requires (version, g) in c
    ensures Lookup(c, version) == W.Some(g)
  {
    if c[0] != (version, g) {
      var k :| 0 <= k < |c| && c[k] == (version, g);
      assert k > 0;
      assert c[1..][k - 1] == (version, g);
      GameFoundByVersion(c[1..], version, g);
    }
  }

  /** TrCatalog.PredictSoundMapSize. */
  function PredictSoundMapSize(wadVersion: WadGameVersion, isNg: bool, numDemoData: int): (r: W.Result<int, CatalogError>)
    ensures wadVersion.UnknownVersion? <==> r.Failure?
    ensures r.Success? && !(wadVersion == TR4_TRNG && isNg && numDemoData != 0) ==> r.value in {256, 370, 450}
    ensures wadVersion == TR4_TRNG && isNg && numDemoData != 0 ==> r == W.Success(numDemoData)
  {
    match wadVersion
    case TR1 => W.Success(256)
    case TR2 => W.Success(370)
    case TR3 => W.Success(370)
    case TR4_TRNG => W.Success(if isNg && numDemoData != 0 then numDemoData else 370)
    case TR5 => W.Success(450)
    case TR5Main => W.Success(450)
    case UnknownVersion(_) => W.Failure(ArgumentOutOfRange)
  }

  function UnknownName(id: nat): string { "Unknown #" + NatToString(id) }

  /** A name lookup in one table of the version's game, "Unknown #id" when the version or the id is absent. */
  function ItemName(c: Catalog, version: WadGameVersion, id: nat, table: Game -> seq<(nat, Item)>): (r: string)
    ensures Lookup(c, version).None? ==> r == UnknownName(id)
    ensures Lookup(c, version).Some? ==>
      var entry := Lookup(table(Lookup(c, version).value), id);
      r == if entry.Some? then entry.value.name else UnknownName(id)
  {
    match Lookup(c, version)
    case None => UnknownName(id)
    case Some(game) =>
      match Lookup(table(game), id)
      case None => UnknownName(id)
      case Some(entry) => entry.name
  }

  /** TrCatalog.GetMoveableName. */
  function GetMoveableName(c: Catalog, version: WadGameVersion, id: nat): string {
    ItemName(c, version, id, (g: Game) => g.moveables)
  }

  /** TrCatalog.GetStaticName. */
  function GetStaticName(c: Catalog, version: WadGameVersion, id: nat): string {
    ItemName(c, version, id, (g: Game) => g.statics)
  }

  /** TrCatalog.GetSpriteSequenceName. */
  function GetSpriteSequenceName(c: Catalog, version: WadGameVersion, id: nat): string {
    ItemName(c, version, id, (g: Game) => g.spriteSequences)
  }

  /** A stored moveable, static or sprite sequence of a well-formed catalog is found by its id; anything absent gets "Unknown #id". */
  lemma NameLookups(c: Catalog, version: WadGameVersion, g: Game, id: nat, item: Item)
    requires DistinctVersions(c) && (version, g) in c
    requires StrictlySorted(g.moveables) && StrictlySorted(g.statics) && StrictlySorted(g.spriteSequences)
    ensures (id, item) in g.moveables ==> GetMoveableName(c, version, id) == item.name
    ensures (id, item) in g.statics ==> GetStaticName(c, version, id) == item.name
    ensures (id, item) in g.spriteSequences ==> GetSpriteSequenceName(c, version, id) == item.name
    ensures (forall i :: 0 <= i < |g.moveables| ==> g.moveables[i].0 != id) ==> GetMoveableName(c, version, id) == UnknownName(id)
  {
    GameFoundByVersion(c, version, g);
    if (id, item) in g.moveables {
      LookupFindsStored(g.moveables, id, item);
    }
    if (id, item) in g.statics {
      LookupFindsStored(g.statics, id, item);
    }
    if (id, item) in g.spriteSequences {
      LookupFindsStored(g.spriteSequences, id, item);
    }
  }

  /** TrCatalog.GetMoveableSkin: the skin id, or the id itself when the version or the id is absent. */
  function GetMoveableSkin(c: Catalog, version: WadGameVersion, id: nat): (r: nat)
    ensures Lookup(c, version).None? || Lookup(Lookup(c, version).value.moveables, id).None? ==> r == id
    ensures Lookup(c, version).Some? && Lookup(Lookup(c, version).value.moveables, id).Some? ==>
      r == Lookup(Lookup(c, version).value.moveables, id).value.skinId
  {
    match Lookup(c, version)
    case None => id
    case Some(game) =>
      match Lookup(game.moveables, id)
      case None => id
      case Some(entry) => entry.skinId
  }

  /** TrCatalog.IsMoveableAI: false for an unknown version or id. */
  function IsMoveableAI(c: Catalog, version: WadGameVersion, id: nat): (r: bool)
    ensures r <==> Lookup(c, version).Some? && Lookup(Lookup(c, version).value.moveables, id).Some? &&
                   Lookup(Lookup(c, version).value.moveables, id).value.aiObject
  {
    match Lookup(c, version)
    case None => false
    case Some(game) =>
      match Lookup(game.moveables, id)
      case None => false
      case Some(entry) => entry.aiObject
  }

  /**
   * The moveable record the catalog loader builds: the skin defaults to the id
   * when use_body_from is missing, and the AI flag is set only by a positive
   * ai attribute.
   */
  function LoadedMoveable(id: nat, name: string, useBodyFrom: W.Option<nat>, ai: W.Option<int>): (r: Item)
    ensures useBodyFrom.None? ==> r.skinId == id
    ensures r.aiObject <==> ai.Some? && ai.value > 0
  {
    Item(name, "", if useBodyFrom.Some? then useBodyFrom.value else id, ai.Some? && ai.value > 0)
  }

  /** A moveable loaded without use_body_from is its own skin, exactly as an absent one is. */
  lemma LoadedMoveableSkin(c: Catalog, version: WadGameVersion, g: Game, id: nat, name: string, ai: W.Option<int>)
    requires DistinctVersions(c) && (version, g) in c && StrictlySorted(g.moveables)
    requires (id, LoadedMoveable(id, name, W.None, ai)) in g.moveables
    ensures GetMoveableSkin(c, version, id) == id
    ensures IsMoveableAI(c, version, id) <==> ai.Some? && ai.value > 0
  {
    GameFoundByVersion(c, version, g);
    LookupFindsStored(g.moveables, id, LoadedMoveable(id, name, W.None, ai));
  }

  /** The key of the first entry whose value satisfies p, in list (key) order. */
  function FirstKeyWhere<V>(s: seq<(nat, V)>, p: V -> bool): (r: W.Option<nat>)
    ensures r.Some? ==> exists i :: 0 <= i < |s| && s[i].0 == r.value && p(s[i].1)
    ensures r.None? ==> forall i :: 0 <= i < |s| ==> !p(s[i].1)
  {
    if s == [] then W.None
    else if p(s[0].1) then W.Some(s[0].0)
    else FirstKeyWhere(s[1..], p)
  }

  /** In a sorted list the first key found is the smallest key whose value matches. */
  lemma {:induction false} FirstKeyWhereIsSmallest<V>(s: seq<(nat, V)>, p: V -> bool)
    requires StrictlySorted(s)
    ensures FirstKeyWhere(s, p).Some? ==> forall i :: 0 <= i < |s| && p(s[i].1) ==> FirstKeyWhere(s, p).value <= s[i].0
  {
    if s != [] && !p(s[0].1) {
      FirstKeyWhereIsSmallest(s[1..], p);
      forall i | 0 <= i < |s| && p(s[i].1) && FirstKeyWhere(s, p).Some?
        ensures FirstKeyWhere(s, p).value <= s[i].0
      {
        assert s[1..][i - 1] == s[i];
      }
    }
  }

  /** Whether some entry of the table has the name, ignoring case. */
  predicate HasName(s: seq<(nat, Item)>, name: string) {
    exists i :: 0 <= i < |s| && EqualsIgnoreCase(s[i].1.name, name)
  }

  /**
   * TrCatalog.GetItemIndex: the id of the first moveable, else of the first
   * static, whose name equals `name` ignoring case, with isMoveable telling
   * which table matched.
   */
  function GetItemIndex(c: Catalog, version: WadGameVersion, name: string): (r: (W.Option<nat>, bool))
    ensures r.1 ==> r.0.Some?
    ensures r.0.Some? ==> Lookup(c, version).Some?
    ensures r.0.Some? && r.1 ==> exists i :: (0 <= i < |Lookup(c, version).value.moveables| &&
      Lookup(c, version).value.moveables[i].0 == r.0.value && EqualsIgnoreCase(Lookup(c, version).value.moveables[i].1.name, name))
    ensures r.0.Some? && !r.1 ==>
      (forall i :: 0 <= i < |Lookup(c, version).value.moveables| ==> !EqualsIgnoreCase(Lookup(c, version).value.moveables[i].1.name, name)) &&
      exists i :: 0 <= i < |Lookup(c, version).value.statics| &&
        Lookup(c, version).value.statics[i].0 == r.0.value && EqualsIgnoreCase(Lookup(c, version).value.statics[i].1.name, name)
    ensures Lookup(c, version).None? ==> r == (W.None, false)
    ensures Lookup(c, version).Some? && HasName(Lookup(c, version).value.moveables, name) ==> r.0.Some? && r.1
    ensures Lookup(c, version).Some? && HasName(Lookup(c, version).value.statics, name) ==> r.0.Some?
  {
    match Lookup(c, version)
    case None => (W.None, false)
    case Some(game) =>
      var inMoveables := FirstKeyWhere(game.moveables, (item: Item) => EqualsIgnoreCase(item.name, name));
      if inMoveables.Some? then (inMoveables, true)
      else
        var inStatics := FirstKeyWhere(game.statics, (item: Item) => EqualsIgnoreCase(item.name, name));
        (inStatics, false)
  }

  /**
   * With ascending keys the index found is the smallest key of its table whose
   * name matches: the moveables when one matches, the statics otherwise.
   */
  lemma GetItemIndexIsSmallest(c: Catalog, version: WadGameVersion, name: string)
    requires Lookup(c, version).Some?
    requires StrictlySorted(Lookup(c, version).value.moveables) && StrictlySorted(Lookup(c, version).value.statics)
    ensures var r := GetItemIndex(c, version, name); r.0.Some? && r.1 ==>
      (forall i :: 0 <= i < |Lookup(c, version).value.moveables| && EqualsIgnoreCase(Lookup(c, version).value.moveables[i].1.name, name) ==>
         r.0.value <= Lookup(c, version).value.moveables[i].0)
    ensures var r := GetItemIndex(c, version, name); r.0.Some? && !r.1 ==>
      (forall i :: 0 <= i < |Lookup(c, version).value.statics| && EqualsIgnoreCase(Lookup(c, version).value.statics[i].1.name, name) ==>
         r.0.value <= Lookup(c, version).value.statics[i].0)
  {
    var game := Lookup(c, version).value;
    FirstKeyWhereIsSmallest(game.moveables, (item: Item) => EqualsIgnoreCase(item.name, name));
    FirstKeyWhereIsSmallest(game.statics, (item: Item) => EqualsIgnoreCase(item.name, name));
  }

  /** TrCatalog.GetOriginalSoundName. */
  function GetOriginalSoundName(c: Catalog, version: WadGameVersion, id: nat): (r: string)
    ensures Lookup(c, version).None? || Lookup(Lookup(c, version).value.sounds, id).None? ==> r == "UNKNOWN_SOUND_" + NatToString(id)
    ensures Lookup(c, version).Some? && Lookup(Lookup(c, version).value.sounds, id).Some? ==>
      r == Lookup(Lookup(c, version).value.sounds, id).value.name
  {
    match Lookup(c, version)
    case None => "UNKNOWN_SOUND_" + NatToString(id)
    case Some(game) =>
      match Lookup(game.sounds, id)
      case None => "UNKNOWN_SOUND_" + NatToString(id)
      case Some(entry) => entry.name
  }

  /** TrCatalog.IsSoundFixedByDefault: false for an unknown version or id. */
  function IsSoundFixedByDefault(c: Catalog, version: WadGameVersion, id: nat): (r: bool)
    ensures r <==> Lookup(c, version).Some? && Lookup(Lookup(c, version).value.sounds, id).Some? &&
                   Lookup(Lookup(c, version).value.sounds, id).value.fixedByDefault
  {
    match Lookup(c, version)
    case None => false
    case Some(game) =>
      match Lookup(game.sounds, id)
      case None => false
      case Some(entry) => entry.fixedByDefault
  }

  /** Entry i of the sound table has the description `name`. */
  predicate Described(sounds: seq<(nat, ItemSound)>, i: int, name: string) {
    0 <= i < |sounds| && sounds[i].1.description == name
  }

  /**
   * TrCatalog.TryGetSoundInfoIdByDescription: the first sound id whose
   * description equals `name`, cast unchecked from uint to int, or -1 when
   * none has it; indexing Games with an absent version throws. An id of
   * 0xFFFFFFFF casts to -1 as well.
   */
  function TryGetSoundInfoIdByDescription(c: Catalog, version: WadGameVersion, name: string): (r: W.Result<int, CatalogError>)
    ensures Lookup(c, version).None? <==> r == W.Failure(KeyNotFound)
    ensures r.Success? ==> B.InInt32(r.value)
    ensures r.Success? && (forall i :: !Described(Lookup(c, version).value.sounds, i, name)) ==> r.value == -1
    ensures r.Success? && (exists i :: Described(Lookup(c, version).value.sounds, i, name)) ==>
      exists i :: Described(Lookup(c, version).value.sounds, i, name) && r.value == B.Int32(Lookup(c, version).value.sounds[i].0)
    ensures r.Success? && r.value != -1 ==>
      exists i :: Described(Lookup(c, version).value.sounds, i, name) && r.value == B.Int32(Lookup(c, version).value.sounds[i].0)
  {
    match Lookup(c, version)
    case None => W.Failure(KeyNotFound)
    case Some(game) =>
      match FirstKeyWhere(game.sounds, (s: ItemSound) => s.description == name)
      case None => W.Success(-1)
      case Some(key) =>
        assert exists i :: Described(game.sounds, i, name) && game.sounds[i].0 == key;
        W.Success(B.Int32(key))
  }

  /** With sorted sound keys the id returned is the cast of the smallest key with that description. */
  lemma SoundInfoIdIsSmallest(c: Catalog, version: WadGameVersion, name: string)
    requires Lookup(c, version).Some? && StrictlySorted(Lookup(c, version).value.sounds)
    ensures var sounds := Lookup(c, version).value.sounds;
      var r := TryGetSoundInfoIdByDescription(c, version, name);
      r.Success? && ((exists i :: Described(sounds, i, name)) ==>
        exists i :: Described(sounds, i, name) && r.value == B.Int32(sounds[i].0) &&
          forall j :: Described(sounds, j, name) ==> sounds[i].0 <= sounds[j].0)
  {
    var sounds := Lookup(c, version).value.sounds;
    var p := (s: ItemSound) => s.description == name;
    FirstKeyWhereIsSmallest(sounds, p);
    var key := FirstKeyWhere(sounds, p);
    if exists i :: Described(sounds, i, name) {
      var i :| 0 <= i < |sounds| && sounds[i].0 == key.value && p(sounds[i].1);
      assert Described(sounds, i, name);
    }
  }

  /** A first matching sound id of 0xFFFFFFFF reads back as -1, the not-found answer. */
  lemma MaxSoundIdReadsAsNotFound(c: Catalog, version: WadGameVersion, name: string)
    requires Lookup(c, version).Some? && Lookup(c, version).value.sounds != []
    requires Lookup(c, version).value.sounds[0] == (0xFFFF_FFFF, Lookup(c, version).value.sounds[0].1)
    requires Lookup(c, version).value.sounds[0].1.description == name
    ensures TryGetSoundInfoIdByDescription(c, version, name) == W.Success(-1)
  {
  }

  // ---------------------------------------------------------------------------
  // Animation and state names, with the fall-back over the other games.

  /** The other games than `version`, in dictionary order. */
  function OtherGames(c: Catalog, version: WadGameVersion): (r: seq<Game>)
    ensures |r| <= |c|
  {
    if c == [] then []
    else OtherGames(c[..|c| - 1], version) + (if c[|c| - 1].0 != version then [c[|c| - 1].1] else [])
  }

  function Reverse<T>(s: seq<T>): (r: seq<T>)
    ensures |r| == |s|
  {
    if s == [] then [] else [s[|s| - 1]] + Reverse(s[..|s| - 1])
  }

  /** The first game of the list for which `find` yields something, and what it yields. */
  function FirstFound<T>(games: seq<Game>, find: Game -> W.Option<T>): W.Option<T> {
    if games == [] then W.None
    else if find(games[0]).Some? then find(games[0]) else FirstFound(games[1..], find)
  }

  /** Searching the last of the other games first: the match of the latest-added other game. */
  function LastFoundOther<T>(c: Catalog, version: WadGameVersion, find: Game -> W.Option<T>): W.Option<T> {
    if c == [] then W.None
    else if c[|c| - 1].0 != version && find(c[|c| - 1].1).Some? then find(c[|c| - 1].1)
    else LastFoundOther(c[..|c| - 1], version, find)
  }

  /** Reversing a list with one more element at the end puts that element in front. */
  lemma ReverseSnoc<T>(s: seq<T>, x: T)
    ensures Reverse(s + [x]) == [x] + Reverse(s)
  {
    var t := s + [x];
    assert t[..|t| - 1] == s;
  }

  /** FirstFound on a list with g in front: g's match, else the match in the rest. */
  lemma FirstFoundCons<T>(g: Game, rest: seq<Game>, find: Game -> W.Option<T>)
    ensures FirstFound([g] + rest, find) == if find(g).Some? then find(g) else FirstFound(rest, find)
  {
    assert ([g] + rest)[0] == g && ([g] + rest)[1..] == rest;
  }

  /** Walking the reversed list of other games finds the match of the latest-added other game. */
  lemma {:induction false} ReversedSearchFindsLast<T>(c: Catalog, version: WadGameVersion, find: Game -> W.Option<T>)
    ensures FirstFound(Reverse(OtherGames(c, version)), find) == LastFoundOther(c, version, find)
  {
    if c != [] {
      var init := c[..|c| - 1];
      var last := c[|c| - 1];
      ReversedSearchFindsLast(init, version, find);
      var before := OtherGames(init, version);
      if last.0 != version {
        assert OtherGames(c, version) == before + [last.1];
        ReverseSnoc(before, last.1);
        FirstFoundCons(last.1, Reverse(before), find);
      } else {
        assert OtherGames(c, version) == before;
      }
    }
  }

  /** The name of the first animation entry of the list for that object and animation. */
  function FindAnimation(animations: seq<ItemAnimation>, objectId: nat, animId: nat): (r: W.Option<string>)
    ensures r.Some? ==> ItemAnimation(objectId, animId, r.value) in animations
  {
    if animations == [] then W.None
    else if animations[0].item == objectId && animations[0].animation == animId then W.Some(animations[0].name)
    else FindAnimation(animations[1..], objectId, animId)
  }

  function FindState(states: seq<ItemState>, objectId: nat, stateId: nat): (r: W.Option<string>)
    ensures r.Some? ==> ItemState(objectId, stateId, r.value) in states
  {
    if states == [] then W.None
    else if states[0].item == objectId && states[0].state == stateId then W.Some(states[0].name)
    else FindState(states[1..], objectId, stateId)
  }

  /** The state of the first entry of the list for that object whose lower-cased name contains the lower-cased stateName. */
  function FindStateByName(states: seq<ItemState>, objectId: nat, stateName: string): (r: W.Option<nat>)
    ensures r.Some? ==> exists i :: (0 <= i < |states| && states[i].item == objectId && states[i].state == r.value &&
      ContainsSubstring(ToLower(states[i].name), ToLower(stateName)))
  {
    if states == [] then W.None
    else if states[0].item == objectId && ContainsSubstring(ToLower(states[0].name), ToLower(stateName)) then W.Some(states[0].state)
    else
      var r := FindStateByName(states[1..], objectId, stateName);
      assert r.Some? ==> exists i :: (1 <= i < |states| && states[i].item == objectId && states[i].state == r.value &&
        ContainsSubstring(ToLower(states[i].name), ToLower(stateName))) by {
        if r.Some? {
          var i :| 0 <= i < |states[1..]| && states[1..][i].item == objectId && states[1..][i].state == r.value &&
            ContainsSubstring(ToLower(states[1..][i].name), ToLower(stateName));
          assert states[i + 1] == states[1..][i];
        }
      }
      r
  }

  function AnimationFinder(objectId: nat, animId: nat): Game -> W.Option<string> {
    (g: Game) => FindAnimation(g.animations, objectId, animId)
  }

  function StateFinder(objectId: nat, stateId: nat): Game -> W.Option<string> {
    (g: Game) => FindState(g.states, objectId, stateId)
  }

  function StateByNameFinder(objectId: nat, stateName: string): Game -> W.Option<nat> {
    (g: Game) => FindStateByName(g.states, objectId, stateName)
  }

  /** The animation name the catalog gives: the version's own entry, else the latest-added other game's, else "Animation n". */
  function AnimationName(c: Catalog, version: WadGameVersion, objectId: nat, animId: nat): string {
    var find := AnimationFinder(objectId, animId);
    var own := if Lookup(c, version).Some? then find(Lookup(c, version).value) else W.None;
    var entry := if own.Some? then own else LastFoundOther(c, version, find);
    if entry.Some? then entry.value else "Animation " + NatToString(animId)
  }

  function StateName(c: Catalog, version: WadGameVersion, objectId: nat, stateId: nat): string {
    var find := StateFinder(objectId, stateId);
    var own := if Lookup(c, version).Some? then find(Lookup(c, version).value) else W.None;
    var entry := if own.Some? then own else LastFoundOther(c, version, find);
    if entry.Some? then entry.value else "Unknown state " + NatToString(stateId)
  }

  /** The state id TryToGetStateID finds: the version's own entry, else the earliest-added other game's, else -1. */
  function StateIdByName(c: Catalog, version: WadGameVersion, objectId: nat, stateName: string): int {
    var find := StateByNameFinder(objectId, stateName);
    var own := if Lookup(c, version).Some? then find(Lookup(c, version).value) else W.None;
    var entry := if own.Some? then own else FirstFound(OtherGames(c, version), find);
    if entry.Some? then entry.value else -1
  }

  /** Searches `games` in order and stops at the first one for which `find` yields something. */
  method SearchGames<T>(games: seq<Game>, find: Game -> W.Option<T>) returns (entry: W.Option<T>)
    ensures entry == FirstFound(games, find)
  {
    entry := W.None;
    var i := 0;
    while i < |games|
      invariant 0 <= i <= |games|
      invariant FirstFound(games, find) == FirstFound(games[i..], find)
      invariant entry.None?
    {
      assert games[i..][0] == games[i] && games[i..][1..] == games[i + 1..];
      entry := find(games[i]);
      if entry.Some? {
        return;
      }
      i := i + 1;
    }
  }

  /** TrCatalog.GetAnimationName. */
  method GetAnimationName(c: Catalog, version: WadGameVersion, objectId: nat, animId: nat) returns (name: string)
    ensures name == AnimationName(c, version, objectId, animId)
  {
    var find := AnimationFinder(objectId, animId);
    var entry: W.Option<string> := W.None;
    var game := Lookup(c, version);
    if game.Some? {
      entry := find(game.value);
    }
    if entry.None? {
      var otherGames := Reverse(OtherGames(c, version));
      entry := SearchGames(otherGames, find);
      ReversedSearchFindsLast(c, version, find);
    }
    name := if entry.None? then "Animation " + NatToString(animId) else entry.value;
  }

  /** TrCatalog.GetStateName. */
  method GetStateName(c: Catalog, version: WadGameVersion, objectId: nat, stateId: nat) returns (name: string)
    ensures name == StateName(c, version, objectId, stateId)
  {
    var find := StateFinder(objectId, stateId);
    var entry: W.Option<string> := W.None;
    var game := Lookup(c, version);
    if game.Some? {
      entry := find(game.value);
    }
    if entry.None? {
      var otherGames := Reverse(OtherGames(c, version));
      entry := SearchGames(otherGames, find);
      ReversedSearchFindsLast(c, version, find);
    }
    name := if entry.None? then "Unknown state " + NatToString(stateId) else entry.value;
  }

  /** TrCatalog.TryToGetStateID. */
  method TryToGetStateID(c: Catalog, version: WadGameVersion, objectId: nat, stateName: string) returns (id: int)
    ensures id == StateIdByName(c, version, objectId, stateName)
  {
    var find := StateByNameFinder(objectId, stateName);
    var entry: W.Option<nat> := W.None;
    var game := Lookup(c, version);
    if game.Some? {
      entry := find(game.value);
    }
    if entry.None? {
      entry := SearchGames(OtherGames(c, version), find);
    }
    id := if entry.None? then -1 else entry.value;
  }

  /** Every game that FirstFound returns a result for lies in the list searched. */
  lemma {:induction false} FirstFoundFrom<T>(games: seq<Game>, find: Game -> W.Option<T>)
    ensures FirstFound(games, find).Some? ==> exists i :: 0 <= i < |games| && find(games[i]) == FirstFound(games, find)
  {
    if games != [] && find(games[0]).None? {
      FirstFoundFrom(games[1..], find);
      if FirstFound(games, find).Some? {
        var i :| 0 <= i < |games[1..]| && find(games[1..][i]) == FirstFound(games, find);
        assert games[i + 1] == games[1..][i];
      }
    }
  }

  lemma {:induction false} LastFoundOtherFrom<T>(c: Catalog, version: WadGameVersion, find: Game -> W.Option<T>)
    ensures LastFoundOther(c, version, find).Some? ==>
      exists i :: 0 <= i < |c| && c[i].0 != version && find(c[i].1) == LastFoundOther(c, version, find)
  {
    if c != [] && !(c[|c| - 1].0 != version && find(c[|c| - 1].1).Some?) {
      LastFoundOtherFrom(c[..|c| - 1], version, find);
    }
  }

  /**
   * The animation name is the default text or the name of an entry for that
   * object and animation in some game of the catalog; the version's own entry
   * takes precedence.
   */
  lemma AnimationNameSource(c: Catalog, version: WadGameVersion, objectId: nat, animId: nat)
    ensures var name := AnimationName(c, version, objectId, animId);
      name == "Animation " + NatToString(animId) ||
      exists i :: 0 <= i < |c| && ItemAnimation(objectId, animId, name) in c[i].1.animations
    ensures Lookup(c, version).Some? && FindAnimation(Lookup(c, version).value.animations, objectId, animId).Some? ==>
      AnimationName(c, version, objectId, animId) == FindAnimation(Lookup(c, version).value.animations, objectId, animId).value
  {
    var find := AnimationFinder(objectId, animId);
    LastFoundOtherFrom(c, version, find);
    if Lookup(c, version).Some? {
      var k :| 0 <= k < |c| && c[k] == (version, Lookup(c, version).value);
    }
  }

  /**
   * The state name is the default text or the name of an entry for that
   * object and state in some game of the catalog; the version's own entry
   * takes precedence.
   */
  lemma StateNameSource(c: Catalog, version: WadGameVersion, objectId: nat, stateId: nat)
    ensures var name := StateName(c, version, objectId, stateId);
      name == "Unknown state " + NatToString(stateId) ||
      exists i :: 0 <= i < |c| && ItemState(objectId, stateId, name) in c[i].1.states
    ensures Lookup(c, version).Some? && FindState(Lookup(c, version).value.states, objectId, stateId).Some? ==>
      StateName(c, version, objectId, stateId) == FindState(Lookup(c, version).value.states, objectId, stateId).value
  {
    var find := StateFinder(objectId, stateId);
    LastFoundOtherFrom(c, version, find);
    if Lookup(c, version).Some? {
      var k :| 0 <= k < |c| && c[k] == (version, Lookup(c, version).value);
    }
  }

  /** FirstFound yields nothing exactly when `find` yields nothing for every game of the list. */
  lemma {:induction false} FirstFoundNone<T>(games: seq<Game>, find: Game -> W.Option<T>)
    ensures FirstFound(games, find).None? <==> forall i :: 0 <= i < |games| ==> find(games[i]).None?
  {
    if games != [] {
      FirstFoundNone(games[1..], find);
      assert forall i :: 1 <= i < |games| ==> games[i] == games[1..][i - 1];
    }
  }

  /** The other games are exactly the games of the entries whose version differs. */
  lemma {:induction false} OtherGamesMembers(c: Catalog, version: WadGameVersion)
    ensures forall i :: 0 <= i < |c| && c[i].0 != version ==> c[i].1 in OtherGames(c, version)
    ensures forall g :: g in OtherGames(c, version) ==> exists i :: 0 <= i < |c| && c[i].0 != version && c[i].1 == g
  {
    if c != [] {
      var init := c[..|c| - 1];
      OtherGamesMembers(init, version);
      assert forall i :: 0 <= i < |init| ==> init[i] == c[i];
    }
  }

  /** A match found among the other games is the match of some entry whose version differs. */
  lemma OtherFoundFrom<T>(c: Catalog, version: WadGameVersion, find: Game -> W.Option<T>)
    ensures FirstFound(OtherGames(c, version), find).Some? ==>
      exists i :: 0 <= i < |c| && c[i].0 != version && find(c[i].1) == FirstFound(OtherGames(c, version), find)
  {
    var others := OtherGames(c, version);
    FirstFoundFrom(others, find);
    OtherGamesMembers(c, version);
    if FirstFound(others, find).Some? {
      var j :| 0 <= j < |others| && find(others[j]) == FirstFound(others, find);
      assert others[j] in others;
    }
  }

  /** No match among the other games means no entry whose version differs matches. */
  lemma OtherNone<T>(c: Catalog, version: WadGameVersion, find: Game -> W.Option<T>)
    ensures FirstFound(OtherGames(c, version), find).None? ==>
      forall i :: 0 <= i < |c| && c[i].0 != version ==> find(c[i].1).None?
  {
    var others := OtherGames(c, version);
    FirstFoundNone(others, find);
    OtherGamesMembers(c, version);
  }

  /**
   * TryToGetStateID yields -1 exactly when no game of the catalog has an entry
   * for that object whose name contains the searched name; otherwise it yields
   * the state of such an entry.
   */
  lemma StateIdByNameSource(c: Catalog, version: WadGameVersion, objectId: nat, stateName: string)
    requires DistinctVersions(c)
    ensures StateIdByName(c, version, objectId, stateName) == -1 <==>
      forall i :: 0 <= i < |c| ==> FindStateByName(c[i].1.states, objectId, stateName).None?
    ensures var id := StateIdByName(c, version, objectId, stateName);
      id != -1 ==> exists i :: 0 <= i < |c| && FindStateByName(c[i].1.states, objectId, stateName) == W.Some(id)
  {
    var find := StateByNameFinder(objectId, stateName);
    var others := OtherGames(c, version);
    var own := if Lookup(c, version).Some? then find(Lookup(c, version).value) else W.None;
    if own.Some? {
      var k :| 0 <= k < |c| && c[k] == (version, Lookup(c, version).value);
    } else if FirstFound(others, find).Some? {
      OtherFoundFrom(c, version, find);
    } else {
      OtherNone(c, version, find);
      forall i | 0 <= i < |c| ensures FindStateByName(c[i].1.states, objectId, stateName).None? {
        if c[i].0 == version {
          GameFoundByVersion(c, version, c[i].1);
        }
      }
    }
  }

  /** TrCatalog.GetVersionString: the six known versions have fixed names, anything else throws. */
  function GetVersionString(version: WadGameVersion): (r: W.Result<string, CatalogError>)
    ensures version.UnknownVersion? <==> r.Failure?
    ensures r.Success? ==> |r.value| > 0
  {
    match version
    case TR1 => W.Success("Tomb Raider")
    case TR2 => W.Success("Tomb Raider 2")
    case TR3 => W.Success("Tomb Raider 3")
    case TR4_TRNG => W.Success("Tomb Raider 4")
    case TR5 => W.Success("Tomb Raider 5")
    case TR5Main => W.Success("TR5Main")
    case UnknownVersion(_) => W.Failure(ArgumentOutOfRange)
  }

  /** No two known versions share a name. */
  lemma VersionStringsDistinct(v: WadGameVersion, u: WadGameVersion)
    requires GetVersionString(v).Success? && GetVersionString(u).Success?
    requires GetVersionString(v) == GetVersionString(u)
    ensures v == u
  {
  }

  // ---------------------------------------------------------------------------
  // GetAll*: the tables of a version projected to their names.

  function NamesOf<V>(s: seq<(nat, V)>, name: V -> string): (r: map<nat, string>)
    ensures forall key :: key in r <==> exists i :: 0 <= i < |s| && s[i].0 == key
  {
    if s == [] then map[]
    else
      var rest := NamesOf(s[..|s| - 1], name);
      assert forall key :: key in rest <==> exists i :: 0 <= i < |s| - 1 && s[i].0 == key by {
        forall key ensures key in rest <==> exists i :: 0 <= i < |s| - 1 && s[i].0 == key {
          if key in rest {
            var i :| 0 <= i < |s[..|s| - 1]| && s[..|s| - 1][i].0 == key;
            assert s[i].0 == key;
          }
          if exists i :: 0 <= i < |s| - 1 && s[i].0 == key {
            var i :| 0 <= i < |s| - 1 && s[i].0 == key;
            assert s[..|s| - 1][i].0 == key;
          }
        }
      }
      rest[s[|s| - 1].0 := name(s[|s| - 1].1)]
  }

  /** In a sorted list each key's projected name is the name of its own entry. */
  lemma {:induction false} NamesOfStored<V>(s: seq<(nat, V)>, name: V -> string, i: nat)
    requires StrictlySorted(s) && i < |s|
    ensures NamesOf(s, name)[s[i].0] == name(s[i].1)
  {
    if i < |s| - 1 {
      NamesOfStored(s[..|s| - 1], name, i);
      assert s[..|s| - 1][i] == s[i];
    }
  }

  function GetAllMoveables(c: Catalog, version: WadGameVersion): (r: W.Result<map<nat, string>, CatalogError>)
    ensures Lookup(c, version).None? <==> r.Failure?
    ensures r.Success? ==> forall key :: key in r.value <==> Lookup(Lookup(c, version).value.moveables, key).Some?
  {
    match Lookup(c, version)
    case None => W.Failure(KeyNotFound)
    case Some(game) => W.Success(NamesOf(game.moveables, (item: Item) => item.name))
  }

  function GetAllStatics(c: Catalog, version: WadGameVersion): (r: W.Result<map<nat, string>, CatalogError>)
    ensures Lookup(c, version).None? <==> r.Failure?
    ensures r.Success? ==> forall key :: key in r.value <==> Lookup(Lookup(c, version).value.statics, key).Some?
  {
    match Lookup(c, version)
    case None => W.Failure(KeyNotFound)
    case Some(game) => W.Success(NamesOf(game.statics, (item: Item) => item.name))
  }

  function GetAllSpriteSequences(c: Catalog, version: WadGameVersion): (r: W.Result<map<nat, string>, CatalogError>)
    ensures Lookup(c, version).None? <==> r.Failure?
    ensures r.Success? ==> forall key :: key in r.value <==> Lookup(Lookup(c, version).value.spriteSequences, key).Some?
  {
    match Lookup(c, version)
    case None => W.Failure(KeyNotFound)
    case Some(game) => W.Success(NamesOf(game.spriteSequences, (item: Item) => item.name))
  }

  function GetAllSounds(c: Catalog, version: WadGameVersion): (r: W.Result<map<nat, string>, CatalogError>)
    ensures Lookup(c, version).None? <==> r.Failure?
    ensures r.Success? ==> forall key :: key in r.value <==> Lookup(Lookup(c, version).value.sounds, key).Some?
  {
    match Lookup(c, version)
    case None => W.Failure(KeyNotFound)
    case Some(game) => W.Success(NamesOf(game.sounds, (s: ItemSound) => s.name))
  }

  function FixedByDefault(s: seq<(nat, ItemSound)>): (r: seq<(nat, ItemSound)>)
    ensures forall i :: 0 <= i < |r| ==> r[i].1.fixedByDefault && r[i] in s
    ensures forall i :: 0 <= i < |s| && s[i].1.fixedByDefault ==> s[i] in r
  {
    if s == [] then []
    else (if s[0].1.fixedByDefault then [s[0]] else []) + FixedByDefault(s[1..])
  }

  /** The id-to-name table of the sounds marked fixed by default. */
  function FixedNames(sounds: seq<(nat, ItemSound)>): map<nat, string> {
    NamesOf(FixedByDefault(sounds), (s: ItemSound) => s.name)
  }

  /** The names of the fixed-by-default sounds are keyed by exactly the ids of the sounds marked so. */
  lemma FixedNamesExactly(sounds: seq<(nat, ItemSound)>)
    ensures forall key :: key in FixedNames(sounds) <==>
      exists i :: 0 <= i < |sounds| && sounds[i].0 == key && sounds[i].1.fixedByDefault
  {
    var fixedSounds := FixedByDefault(sounds);
    var r := NamesOf(fixedSounds, (s: ItemSound) => s.name);
    forall key ensures key in r <==> exists i :: 0 <= i < |sounds| && sounds[i].0 == key && sounds[i].1.fixedByDefault {
      if key in r {
        var j :| 0 <= j < |fixedSounds| && fixedSounds[j].0 == key;
        var i :| 0 <= i < |sounds| && sounds[i] == fixedSounds[j];
      }
      if exists i :: 0 <= i < |sounds| && sounds[i].0 == key && sounds[i].1.fixedByDefault {
        var i :| 0 <= i < |sounds| && sounds[i].0 == key && sounds[i].1.fixedByDefault;
        var j :| 0 <= j < |fixedSounds| && fixedSounds[j] == sounds[i];
      }
    }
  }

  function GetAllFixedByDefaultSounds(c: Catalog, version: WadGameVersion): (r: W.Result<map<nat, string>, CatalogError>)
    ensures Lookup(c, version).None? <==> r.Failure?
    ensures r.Success? ==> forall key :: key in r.value <==>
      exists i :: 0 <= i < |Lookup(c, version).value.sounds| && Lookup(c, version).value.sounds[i].0 == key &&
        Lookup(c, version).value.sounds[i].1.fixedByDefault
  {
    match Lookup(c, version)
    case None => W.Failure(KeyNotFound)
    case Some(game) =>
      FixedNamesExactly(game.sounds);
      W.Success(FixedNames(game.sounds))
  }
}
