# Tomb Editor core, modelled in Dafny

This project models the integer and discrete logic at the core of Tomb Editor, the level editor for the Tomb Raider engines, and proves properties of it. Each module follows one source file.

- `SectorGeometry` (sector_wall.dfy): which vertical wall faces a sector side gets. It covers the floor part under the main floor split QA and its extra splits, the ceiling part over the main ceiling split WS and its extra splits, and the middle face. `Normalize` snaps the splits and drops the ones lying in the void.
- `LegacyWallGeometry`: the older wall-face derivation. It has a single extra split per side (ED on the floor, RF on the ceiling).
- `LevelCompilerTombEngine` and `KeySort`: the bookkeeping of the Tomb Engine level compiler.
  - The dense index tables: cameras and sinks on one counter, then flyby cameras, sound sources, items and AI objects.
  - The flyby ordering and its duplicate warnings.
  - The sound-source play flags.
  - The walk that collects the rooms reachable through portals.
  - The descent through floor portals.
  - The split of moveables into items and AI objects, with the item-count warnings.
- `NgParameterInfo` and `Bits`: the NG trigger rules.
  - Which trigger and target types each game version offers, and when a trigger is valid.
  - How a timer and an extra value are packed into one ushort.
  - The conversion of a trigger to and from its three-number script text.
- `TrCatalog`: the per-game lookups with their default fallbacks, and the predicted sound-map size.
- `EditorUtils` and `EditorState`:
  - the editor's integer point and rectangle algebra and its search helpers. A `SharpDX.Rectangle` is read as (left, top, right, bottom), with X and Y its left and top edges. Offsets and inflations use C#'s unchecked 32-bit `int` arithmetic, so an edge pushed past `int.MaxValue` or `int.MinValue` wraps around (`Bits.Int32`);
  - the block-selection state of the editor.
- `TrLevelReader`: the reader of original level files, in three parts.
  - The version word and its ".trc" fix-up.
  - The header up to the level data.
  - The level-data parse: meshes with their size accounting, animations, models, textures and sounds.
- `Text`, `Versions`, `Wrappers`:
  - `Text`: the .NET string operations the code relies on;
  - `Versions`: the target-engine enumeration;
  - `Wrappers`: Option and Result, the shapes of nullable results and thrown exceptions.

The level reader reproduces the way the source reads two counts, the room light count and the TR1/TR2 object-texture count, from the file reader instead of the level-data reader (TombLib/Wad/TrLevels/TrLevel.cs:149 and 434). For TR1-TR3 the file reader is already at the end of the file at that point. As a result, a TR1 or TR2 file of at most int.MaxValue bytes never loads, and a TR3 file loads only when it has no rooms. `TrLevelReader.TrLevel.LoadLevel` states both facts.

## Model

| member | source | states |
|---|---|---|
| EditorState.SelectionRect | TombEditor/Editor.cs:374-379 | the rectangle spanned by two corners is normalised, contains both corners, and takes each edge from one of the two corners |
| EditorState.SelectionRectIgnoresDragDirection | TombEditor/Editor.cs:374-379 | the selection does not depend on which corner was dragged first, along either axis |
| EditorState.SelectionRectRoundTrip | TombEditor/Editor.cs:372-384 | storing a normalised rectangle through the setter and reading it through the getter gives the same rectangle |
| EditorState.Editor.constructor | TombEditor/Editor.cs:65-66 | both selection corners start at (-1, -1), so no block selection is available |
| EditorState.Editor.BlockSelection | TombEditor/Editor.cs:374-379 | the getter always yields a normalised rectangle (left <= right, top <= bottom) |
| EditorState.Editor.SetBlockSelection | TombEditor/Editor.cs:380-384 | (X, Y) becomes the start corner and (Right, Bottom) the end corner; reading back a normalised value returns it; the selected light is untouched |
| EditorState.Editor.BlockSelectionReset | TombEditor/Editor.cs:387-396 | both corners become (-1, -1), after which BlockSelectionAvailable is false; the selected light is untouched |
| EditorState.Editor.SelectRoom | TombEditor/Editor.cs:339-346 | the selected light index becomes -1 and the block selection is reset and unavailable |
| EditorUtils.PointMax | TombEditor/Utils.cs:85-88 | each coordinate is the larger of the two points' coordinates |
| EditorUtils.PointMin | TombEditor/Utils.cs:95-98 | each coordinate is the smaller of the two points' coordinates |
| EditorUtils.Intersect | TombEditor/Utils.cs:105-112 | the intersection is contained in both operands |
| EditorUtils.Union | TombEditor/Utils.cs:114-121 | the union contains both operands |
| EditorUtils.IntersectIsGreatest | TombEditor/Utils.cs:105-127 | a rectangle lies in both operands exactly when it lies in their intersection |
| EditorUtils.UnionIsLeast | TombEditor/Utils.cs:114-127 | a rectangle contains both operands exactly when it contains their union |
| EditorUtils.IntersectsSymmetric | TombEditor/Utils.cs:129-133 | the inclusive-edge overlap test is symmetric |
| EditorUtils.IntersectsIffIntersectionNormalized | TombEditor/Utils.cs:105-133 | two normalised rectangles overlap exactly when their intersection is a normalised rectangle |
| EditorUtils.OffsetPoint | TombEditor/Utils.cs:135-138 | each coordinate is a C# int; without overflow the result minus the offset is the base point, and with overflow it is congruent to it modulo 2^32 |
| EditorUtils.OffsetNegPoint | TombEditor/Utils.cs:145-148 | each coordinate is a C# int; without overflow the result plus the offset is the base point, and with overflow it is congruent to it modulo 2^32 |
| EditorUtils.Offset | TombEditor/Utils.cs:140-143 | every edge is a C# int; when no edge overflows, the rectangle lies exactly p further on with its width and height unchanged |
| EditorUtils.OffsetNeg | TombEditor/Utils.cs:150-153 | every edge is a C# int; when no edge overflows, the rectangle lies exactly p back with its width and height unchanged |
| EditorUtils.OffsetKeepsSize | TombEditor/Utils.cs:140-153 | Offset and OffsetNeg keep the int width (right - left) and height (bottom - top), even when edges wrap |
| EditorUtils.OffsetRoundTrip | TombEditor/Utils.cs:135-153 | for points and rectangles of C# ints, OffsetNeg undoes Offset and Offset undoes OffsetNeg, even when the intermediate wraps |
| EditorUtils.InflateXY | TombEditor/Utils.cs:165-168 | every edge is a C# int; when no edge overflows, the width grows by exactly 2x and the height by 2y, a non-negative inflation contains the original, and a non-positive one is contained in it |
| EditorUtils.Inflate | TombEditor/Utils.cs:160-163 | every edge is a C# int; when no edge overflows, the width and height grow by exactly twice the amount, and a non-negative amount gives a rectangle containing the original |
| EditorUtils.InflateGrowsSize | TombEditor/Utils.cs:165-168 | the int width of an inflated rectangle is the wrapped (width + 2x) and its height the wrapped (height + 2y), even when edges wrap |
| EditorUtils.InflateWrapsAtMinValue | TombEditor/Utils.cs:160-163 | with wrap-around a positive inflation need not contain the original: a left edge at int.MinValue moved out by one wraps to int.MaxValue |
| EditorUtils.InflateIsInflateXY | TombEditor/Utils.cs:160-168 | Inflate(w) is Inflate(w, w) |
| EditorUtils.ReferenceIndexOf | TombEditor/Utils.cs:170-183 | -1 for a null needle or one not in the list, otherwise the first index holding the needle |
| EditorUtils.TryGetOrDefault | TombEditor/Utils.cs:185-191 | the stored value when the key is present, the default otherwise |
| EditorUtils.TryGet | TombEditor/Utils.cs:200-205 | null for an index out of range, the element otherwise |
| EditorUtils.TryGet2D | TombEditor/Utils.cs:207-214 | null when either index is out of range, the element otherwise |
| EditorUtils.TryGet3D | TombEditor/Utils.cs:216-225 | null when any index is out of range, the element otherwise |
| EditorUtils.FirstIndexFrom | TombEditor/Utils.cs:232-249 | the first index at or after the start whose element matches, with no match before it, or none when nothing from the start matches |
| EditorUtils.FindFirstAfterWithWrapAround | TombEditor/Utils.cs:227-252 | the two-pass loop with its ignoreMatches flag computes the reference search FirstAfterWithWrapAround |
| EditorUtils.FirstAfterWithWrapAroundPrefers | TombEditor/Utils.cs:227-252 | null exactly when nothing matches; a result always matches and is in the list; with no previous element the first match of the list is returned |
| EditorUtils.Swap | TombEditor/Utils.cs:267-272 | the two arguments come back exchanged |
| KeySort.WithKey | TombLib/TombLib/LevelData/Compilers/TombEngine/LevelCompilerTombEngine.cs:455 | the elements with one key, a subsequence no longer than the input |
| KeySort.Insert | TombLib/TombLib/LevelData/Compilers/TombEngine/LevelCompilerTombEngine.cs:455 | inserting adds exactly one element and loses none |
| KeySort.SortByKey | TombLib/TombLib/LevelData/Compilers/TombEngine/LevelCompilerTombEngine.cs:455 | the sorted list is a permutation of the input |
| KeySort.InsertKeepsOrder | TombLib/TombLib/LevelData/Compilers/TombEngine/LevelCompilerTombEngine.cs:455 | inserting into a sorted list keeps it sorted |
| KeySort.SortByKeyIsSorted | TombLib/TombLib/LevelData/Compilers/TombEngine/LevelCompilerTombEngine.cs:455 | the result is ordered by the key |
| KeySort.InsertWithKey | TombLib/TombLib/LevelData/Compilers/TombEngine/LevelCompilerTombEngine.cs:455 | an inserted element goes after every element with the same key |
| KeySort.SortByKeyIsStable | TombLib/TombLib/LevelData/Compilers/TombEngine/LevelCompilerTombEngine.cs:455 | elements with equal keys keep their input order, as LINQ OrderBy/ThenBy does |
| LevelCompilerTombEngine.SlotRefs | TombLib/TombLib/LevelData/Compilers/TombEngine/LevelCompilerTombEngine.cs:135-136 | the instances of one kind in a room, each of that kind, in increasing slot order, and every such slot included |
| LevelCompilerTombEngine.Refs | TombLib/TombLib/LevelData/Compilers/TombEngine/LevelCompilerTombEngine.cs:135-136 | the instances met by the nested room/object loops, each of the requested kind and in a visited room |
| LevelCompilerTombEngine.RefsOrdered | TombLib/TombLib/LevelData/Compilers/TombEngine/LevelCompilerTombEngine.cs:135-136 | the loops meet instances room by room, then slot by slot |
| LevelCompilerTombEngine.RefsComplete | TombLib/TombLib/LevelData/Compilers/TombEngine/LevelCompilerTombEngine.cs:135-136 | every instance of the kind in a non-null visited room is met |
| LevelCompilerTombEngine.InstancesDistinct | TombLib/TombLib/LevelData/Compilers/TombEngine/LevelCompilerTombEngine.cs:135-137 | no instance is met twice, so Dictionary.Add never throws on a duplicate key |
| LevelCompilerTombEngine.InstancesExactly | TombLib/TombLib/LevelData/Compilers/TombEngine/LevelCompilerTombEngine.cs:135-137 | the instances met are exactly the objects of that kind in non-null rooms, each once |
| LevelCompilerTombEngine.IndexMap | TombLib/TombLib/LevelData/Compilers/TombEngine/LevelCompilerTombEngine.cs:133-137 | the table built by adding keys with a running counter has exactly the keys added |
| LevelCompilerTombEngine.IndexMapDense | TombLib/TombLib/LevelData/Compilers/TombEngine/LevelCompilerTombEngine.cs:133-137 | with distinct keys, the k-th key added gets base + k |
| LevelCompilerTombEngine.IndexMapLocates | TombLib/TombLib/LevelData/Compilers/TombEngine/LevelCompilerTombEngine.cs:133-137 | every table entry lies in [base, base + count) and points back at its key |
| LevelCompilerTombEngine.NumberInstances | TombLib/TombLib/LevelData/Compilers/TombEngine/LevelCompilerTombEngine.cs:194-205 | the counting loop builds IndexMap of the keys and leaves the counter at base plus their number |
| LevelCompilerTombEngine.CameraListEntry | TombLib/TombLib/LevelData/Compilers/TombEngine/LevelCompilerTombEngine.cs:208-240 | a camera-list entry records the camera or sink it came from |
| LevelCompilerTombEngine.CameraRecords | TombLib/TombLib/LevelData/Compilers/TombEngine/LevelCompilerTombEngine.cs:208-240 | one camera-list entry per key |
| LevelCompilerTombEngine.CameraRecordsIndex | TombLib/TombLib/LevelData/Compilers/TombEngine/LevelCompilerTombEngine.cs:208-240 | the k-th entry of the camera list is the entry of the k-th key |
| LevelCompilerTombEngine.CameraRecordsConcat | TombLib/TombLib/LevelData/Compilers/TombEngine/LevelCompilerTombEngine.cs:208-240 | the camera list of cameras followed by sinks is the camera entries followed by the sink entries |
| LevelCompilerTombEngine.CamerasStep | TombLib/TombLib/LevelData/Compilers/TombEngine/LevelCompilerTombEngine.cs:208-219 | a camera entry holds the remapped room and flag 1 exactly for a fixed camera |
| LevelCompilerTombEngine.SinksStep | TombLib/TombLib/LevelData/Compilers/TombEngine/LevelCompilerTombEngine.cs:222-240 | a sink entry holds the sink strength in the room field and the box index in the flags field |
| LevelCompilerTombEngine.CameraTablesIndexRecords | TombLib/TombLib/LevelData/Compilers/TombEngine/LevelCompilerTombEngine.cs:188-240 | camera IDs 0..C-1 and sink IDs C.. on the shared counter index the camera list: entry ID holds that instance |
| LevelCompilerTombEngine.IndexMapConcat | TombLib/TombLib/LevelData/Compilers/TombEngine/LevelCompilerTombEngine.cs:188-206 | two tables numbered one after the other index the concatenation of their key lists |
| LevelCompilerTombEngine.FlybyRecordOf | TombLib/TombLib/LevelData/Compilers/TombEngine/LevelCompilerTombEngine.cs:242-263 | a flyby entry records its source; sequence and index are cast to a byte and the timer to a ushort |
| LevelCompilerTombEngine.FlybyRecords | TombLib/TombLib/LevelData/Compilers/TombEngine/LevelCompilerTombEngine.cs:242-264 | one flyby entry per key, in key order |
| LevelCompilerTombEngine.CompareFlyBy | TombLib/TombLib/LevelData/Compilers/TombEngine/LevelCompilerTombEngine.cs:17-29 | the comparer returns -1, 0 or 1; 0 exactly on equal (Sequence, Index); its sign is that of the lexicographic order on that pair |
| LevelCompilerTombEngine.DuplicateWarnings | TombLib/TombLib/LevelData/Compilers/TombEngine/LevelCompilerTombEngine.cs:267-282 | at most one warning per flyby camera |
| LevelCompilerTombEngine.DuplicateWarningsAdjacent | TombLib/TombLib/LevelData/Compilers/TombEngine/LevelCompilerTombEngine.cs:267-282 | the check is silent exactly when no camera shares its (Sequence, Index) with its predecessor |
| LevelCompilerTombEngine.DuplicateWarningsOfSorted | TombLib/TombLib/LevelData/Compilers/TombEngine/LevelCompilerTombEngine.cs:265-282 | on the sorted list the check is silent exactly when no two cameras share a (Sequence, Index) key |
| LevelCompilerTombEngine.KeysIncrease | TombLib/TombLib/LevelData/Compilers/TombEngine/LevelCompilerTombEngine.cs:265-282 | in a sorted list without equal neighbours the keys strictly increase |
| LevelCompilerTombEngine.SoundFlags | TombLib/TombLib/LevelData/Compilers/TombEngine/LevelCompilerTombEngine.cs:152-168 | 0x80 when the source plays in the base room, 0x40 when it plays in the alternate room, never 0; Automatic gives 0x40/0x80 in an alternated room and 0xC0 otherwise |
| LevelCompilerTombEngine.SoundRecordOf | TombLib/TombLib/LevelData/Compilers/TombEngine/LevelCompilerTombEngine.cs:170-178 | the record names its source, the sound ID is cast to a ushort and the flags are non-zero |
| LevelCompilerTombEngine.SoundRecords | TombLib/TombLib/LevelData/Compilers/TombEngine/LevelCompilerTombEngine.cs:140-179 | at most one record per sound source |
| LevelCompilerTombEngine.SoundWarnings | TombLib/TombLib/LevelData/Compilers/TombEngine/LevelCompilerTombEngine.cs:140-150 | at most one warning per sound source |
| LevelCompilerTombEngine.SoundOutputsFromKeys | TombLib/TombLib/LevelData/Compilers/TombEngine/LevelCompilerTombEngine.cs:140-179 | every record comes from a non-empty source with a known sound, every warning from a non-empty source with a missing sound |
| LevelCompilerTombEngine.SoundStep | TombLib/TombLib/LevelData/Compilers/TombEngine/LevelCompilerTombEngine.cs:140-179 | one pass of the loop adds a record for an exported source and a warning for a missing sound, nothing for an empty source |
| LevelCompilerTombEngine.SoundRecordsComplete | TombLib/TombLib/LevelData/Compilers/TombEngine/LevelCompilerTombEngine.cs:140-179 | an exported source gets its record and no warning |
| LevelCompilerTombEngine.SoundWarningsComplete | TombLib/TombLib/LevelData/Compilers/TombEngine/LevelCompilerTombEngine.cs:145-150 | a non-empty source with an unknown sound gets a warning |
| LevelCompilerTombEngine.SoundSourcesExactly | TombLib/TombLib/LevelData/Compilers/TombEngine/LevelCompilerTombEngine.cs:133-179 | over the whole level, a source has a record exactly when it is non-empty with a known sound and a warning exactly when it is non-empty with an unknown sound |
| LevelCompilerTombEngine.ToShort | TombLib/TombLib/LevelData/Compilers/TombEngine/LevelCompilerTombEngine.cs:445 | unchecked((short)v) lies in the short range and agrees with v modulo 2^16 |
| LevelCompilerTombEngine.ItemFlags | TombLib/TombLib/LevelData/Compilers/TombEngine/LevelCompilerTombEngine.cs:430-446 | the item flags fit a ushort |
| LevelCompilerTombEngine.ItemFlagsFields | TombLib/TombLib/LevelData/Compilers/TombEngine/LevelCompilerTombEngine.cs:430 | for code bits below 0x80 the OR is the sum CodeBits * 0x200 + 0x100 (invisible) + 0x80 (clear body): the fields do not overlap |
| LevelCompilerTombEngine.SplitMoveables | TombLib/TombLib/LevelData/Compilers/TombEngine/LevelCompilerTombEngine.cs:398-450 | the moveable loop only appends to the warnings log |
| LevelCompilerTombEngine.SplitMoveablesStaysNone | TombLib/TombLib/LevelData/Compilers/TombEngine/LevelCompilerTombEngine.cs:420-441 | once a checked cast has thrown, the rest of the loop does not run |
| LevelCompilerTombEngine.PlaceMoveableEffect | TombLib/TombLib/LevelData/Compilers/TombEngine/LevelCompilerTombEngine.cs:401-449 | one moveable adds an item and its next table index, or an AI object and its next AI index, or (missing wad entry) a warning, and nothing else |
| LevelCompilerTombEngine.SplitMoveablesItems | TombLib/TombLib/LevelData/Compilers/TombEngine/LevelCompilerTombEngine.cs:398-449 | a moveable is in the item table exactly when its wad entry exists and it is not an AI object above TR3; the table numbers the item list densely |
| LevelCompilerTombEngine.SplitMoveablesAi | TombLib/TombLib/LevelData/Compilers/TombEngine/LevelCompilerTombEngine.cs:398-427 | a moveable is in the AI table exactly when its wad entry exists, the version is above TR3 and the catalog marks it AI; the table numbers the AI list densely |
| LevelCompilerTombEngine.SplitMoveablesWarnings | TombLib/TombLib/LevelData/Compilers/TombEngine/LevelCompilerTombEngine.cs:401-406 | the loop's warnings are missing-moveable warnings, one exactly for each moveable whose wad entry is missing |
| LevelCompilerTombEngine.AiItemsOrder | TombLib/TombLib/LevelData/Compilers/TombEngine/LevelCompilerTombEngine.cs:452-457 | the AI sort keeps every item, orders by descending ObjectID then ascending OCB, and keeps the input order of equal keys |
| LevelCompilerTombEngine.ItemLimits | TombLib/TombLib/LevelData/Compilers/TombEngine/LevelCompilerTombEngine.cs:461-476 | the safe limit never exceeds the hard limit; (1023, 255) for TRNG, (32767, 1023) for TombEngine, (255, 255) otherwise |
| LevelCompilerTombEngine.LimitWarnings | TombLib/TombLib/LevelData/Compilers/TombEngine/LevelCompilerTombEngine.cs:478-486 | a hard-limit warning (with the TREP hint exactly for TR4) iff the count exceeds the hard limit, a safe-limit warning iff it exceeds the safe limit, no warning otherwise |
| LevelCompilerTombEngine.AppendNeighbour | TombLib/TombLib/LevelData/Compilers/TombEngine/LevelCompilerTombEngine.cs:319-334 | appending an unlisted neighbour of a room keeps the list made of distinct rooms of the level |
| LevelCompilerTombEngine.WallTargetsAdded | TombLib/TombLib/LevelData/Compilers/TombEngine/LevelCompilerTombEngine.cs:313-322 | the wall-portal loop, as a function of the list and the portals, only appends to the list |
| LevelCompilerTombEngine.WallTargetsAddedSpec | TombLib/TombLib/LevelData/Compilers/TombEngine/LevelCompilerTombEngine.cs:313-322 | the wall-portal loop keeps the list distinct, and a room ends in the list exactly when it was listed before or is behind a wall portal |
| LevelCompilerTombEngine.ReachesJoin | TombLib/TombLib/LevelData/Compilers/TombEngine/LevelCompilerTombEngine.cs:325-336 | a chain of same-direction portals from c to t followed by such a chain from t is a chain from c, the way the recursion walks on from an entered room |
| LevelCompilerTombEngine.WalkJoins | TombLib/TombLib/LevelData/Compilers/TombEngine/LevelCompilerTombEngine.cs:324-336 | following one portal of the walk's direction keeps the walk traced: its room was listed and nothing changed, or it was appended, entered and walked from, and each room that sub-walk added is at the end of a longer chain or behind a wall portal of an entered room |
| LevelCompilerTombEngine.WalkingStep | TombLib/TombLib/LevelData/Compilers/TombEngine/LevelCompilerTombEngine.cs:324-336 | one pass of the vertical-portal loop over a portal of the walk's direction keeps the loop's state: covered entered rooms, traced additions, passed portals listed |
| LevelCompilerTombEngine.WalkingDone | TombLib/TombLib/LevelData/Compilers/TombEngine/LevelCompilerTombEngine.cs:311-364 | once all portals are passed, every portal of the current room except those of the opposite vertical direction is listed, so the walk is complete |
| LevelCompilerTombEngine.WalkExact | TombLib/TombLib/LevelData/Compilers/TombEngine/LevelCompilerTombEngine.cs:311-364 | on a level without wall portals a walk adds exactly the rooms at the end of a chain of same-direction portals from its room that avoids the rooms listed before it |
| LevelCompilerTombEngine.ReachedWithoutWalls | TombLib/TombLib/LevelData/Compilers/TombEngine/LevelCompilerTombEngine.cs:299-364 | on a level without wall portals a room's list holds exactly the rooms at the end of a ceiling chain from it, and the rooms at the end of a floor chain from it that passes through none of those |
| LevelCompilerTombEngine.ReachedUpOrDown | TombLib/TombLib/LevelData/Compilers/TombEngine/LevelCompilerTombEngine.cs:299-364 | on a level without wall portals, when no room is at the end of both a ceiling chain and a floor chain from a room, its list holds exactly the rooms at the end of either |
| LevelCompilerTombEngine.RemainingShrinks | TombLib/TombLib/LevelData/Compilers/TombEngine/LevelCompilerTombEngine.cs:331-335 | adding a new room shrinks the set of unlisted rooms, the measure under which the recursion terminates |
| LevelCompilerTombEngine.Walk | TombLib/TombLib/LevelData/Compilers/TombEngine/LevelCompilerTombEngine.cs:311-364 | the walk from a room, as GetAllReachableRoomsUp/Down do it: its wall targets are appended, then its vertical portals are followed; the result extends the list and stays made of distinct rooms of the level |
| LevelCompilerTombEngine.FollowFrom | TombLib/TombLib/LevelData/Compilers/TombEngine/LevelCompilerTombEngine.cs:324-336 | the vertical-portal loop from portal i on: an unlisted room behind a portal of the walk's direction is appended and walked from before the next portal, and a listed room is passed over; the result extends the list and stays made of distinct rooms of the level |
| LevelCompilerTombEngine.WalkWalked | TombLib/TombLib/LevelData/Compilers/TombEngine/LevelCompilerTombEngine.cs:311-364 | the exact walk covers and traces what it adds: every room it enters has its portals listed, except those of the opposite vertical direction, and every room it adds is an entered room at the end of a chain from the start room, or behind a wall portal of an entered room |
| LevelCompilerTombEngine.FollowFromWalking | TombLib/TombLib/LevelData/Compilers/TombEngine/LevelCompilerTombEngine.cs:324-336 | the vertical-portal loop from portal i on keeps the walk's covered and traced state up to the last portal |
| LevelCompilerTombEngine.ReachedIsWalked | TombLib/TombLib/LevelData/Compilers/TombEngine/LevelCompilerTombEngine.cs:299-364 | a room's list is made of distinct rooms of the level, holds every neighbour of the room, and both of its walks are covered and traced |
| LevelCompilerTombEngine.WallTargetsAreNotWalked | TombLib/TombLib/LevelData/Compilers/TombEngine/LevelCompilerTombEngine.cs:313-322 | with wall portals 0 to 1 and 1 to 2, room 0's list is exactly [1]: a room listed through a wall portal is not walked from |
| LevelCompilerTombEngine.ListedRoomsAreNotWalked | TombLib/TombLib/LevelData/Compilers/TombEngine/LevelCompilerTombEngine.cs:324-336 | with a wall portal and a ceiling portal from 0 to 1 and a ceiling portal from 1 to 2, room 0's list is exactly [1]: the ceiling portal finds room 1 already listed and does not walk on |
| LevelCompilerTombEngine.Descend | TombLib/TombLib/LevelData/Compilers/TombEngine/LevelCompilerTombEngine.cs:366-375 | the walk through full floor portals, cut off after fuel steps, ends in a room of the level |
| LevelCompilerTombEngine.DescendKeepsWorldPosition | TombLib/TombLib/LevelData/Compilers/TombEngine/LevelCompilerTombEngine.cs:370-373 | each step keeps the sector's world position: room position plus sector coordinates |
| LevelCompilerTombEngine.DescendComposes | TombLib/TombLib/LevelData/Compilers/TombEngine/LevelCompilerTombEngine.cs:366-375 | descending f + g steps is descending f steps and then g more |
| LevelCompilerTombEngine.DescendStopsAtBottom | TombLib/TombLib/LevelData/Compilers/TombEngine/LevelCompilerTombEngine.cs:368 | once the walk is on a sector without a full floor portal, more fuel changes nothing |
| LevelCompilerTombEngine.DescendOnPortalUsedAllFuel | TombLib/TombLib/LevelData/Compilers/TombEngine/LevelCompilerTombEngine.cs:368-374 | a result that still stands on a full floor portal was cut off by the fuel: every shorter walk also ended on one |
| LevelCompilerTombEngine.Compiler.constructor | TombLib/TombLib/LevelData/Compilers/TombEngine/LevelCompilerTombEngine.cs:46-54 | the compiler starts with empty camera, flyby, sound, item and AI lists, no reachable-room lists and no warnings |
| LevelCompilerTombEngine.Compiler.PrepareSoundSources | TombLib/TombLib/LevelData/Compilers/TombEngine/LevelCompilerTombEngine.cs:129-182 | the sound table numbers all sound sources densely in room order; the records and warnings appended are those of SoundRecords and SoundWarnings |
| LevelCompilerTombEngine.Compiler.AddSoundSources | TombLib/TombLib/LevelData/Compilers/TombEngine/LevelCompilerTombEngine.cs:140-179 | the record loop appends exactly SoundRecords and SoundWarnings of the level's sound sources |
| LevelCompilerTombEngine.Compiler.BuildCamerasAndSinks | TombLib/TombLib/LevelData/Compilers/TombEngine/LevelCompilerTombEngine.cs:184-287 | cameras numbered from 0, sinks from the camera count, flybys from 0; the camera list holds cameras then sinks; the flyby list is sorted by (Sequence, Index) and a permutation of the flyby entries; the duplicate warnings are appended |
| LevelCompilerTombEngine.Compiler.AddCameras | TombLib/TombLib/LevelData/Compilers/TombEngine/LevelCompilerTombEngine.cs:208-219 | appends one entry per camera, in numbering order |
| LevelCompilerTombEngine.Compiler.AddSinks | TombLib/TombLib/LevelData/Compilers/TombEngine/LevelCompilerTombEngine.cs:222-240 | appends one entry per sink, in numbering order |
| LevelCompilerTombEngine.Compiler.AddFlybyRecords | TombLib/TombLib/LevelData/Compilers/TombEngine/LevelCompilerTombEngine.cs:242-265 | the flyby list ends sorted by (Sequence, Index) and is a permutation of the old list plus one entry per flyby |
| LevelCompilerTombEngine.Compiler.NumberCamerasAndSinks | TombLib/TombLib/LevelData/Compilers/TombEngine/LevelCompilerTombEngine.cs:188-206 | cameras get 0..C-1, sinks continue at C on the same counter, flybys get their own counter from 0 |
| LevelCompilerTombEngine.Compiler.CheckFlybyDuplicates | TombLib/TombLib/LevelData/Compilers/TombEngine/LevelCompilerTombEngine.cs:267-282 | the loop with lastSeq/lastIndex appends exactly DuplicateWarnings of the sorted list |
| LevelCompilerTombEngine.Compiler.PrepareItems | TombLib/TombLib/LevelData/Compilers/TombEngine/LevelCompilerTombEngine.cs:389-487 | the tables end as PreparedItems computes them (split, AI sort above TR3, count warnings); false exactly when a checked ushort cast throws |
| LevelCompilerTombEngine.Compiler.PlaceMoveables | TombLib/TombLib/LevelData/Compilers/TombEngine/LevelCompilerTombEngine.cs:398-450 | the moveable loop computes SplitMoveables over all moveables; false exactly when a checked cast throws |
| LevelCompilerTombEngine.Compiler.SortAndCountItems | TombLib/TombLib/LevelData/Compilers/TombEngine/LevelCompilerTombEngine.cs:452-486 | the AI list is sorted by key above TR3 and kept otherwise; the item-count warnings are appended |
| LevelCompilerTombEngine.Compiler.PlaceMoveableAt | TombLib/TombLib/LevelData/Compilers/TombEngine/LevelCompilerTombEngine.cs:401-449 | one loop iteration computes PlaceMoveable; false exactly when the checked cast throws |
| LevelCompilerTombEngine.Compiler.CollectReachable | TombLib/TombLib/LevelData/Compilers/TombEngine/LevelCompilerTombEngine.cs:311-364 | GetAllReachableRoomsUp/Down: the base room's list becomes exactly `Walk` of the old list, and no other room's list changes |
| LevelCompilerTombEngine.Compiler.FollowVerticals | TombLib/TombLib/LevelData/Compilers/TombEngine/LevelCompilerTombEngine.cs:324-336 | the vertical-portal loop leaves exactly `FollowFrom` of the old list from the first portal; its invariant is that the rest of the loop ends where the whole loop would have |
| LevelCompilerTombEngine.Compiler.FollowStep | TombLib/TombLib/LevelData/Compilers/TombEngine/LevelCompilerTombEngine.cs:325-336 | one pass over portal i, followed when it has the walk's direction and passed over otherwise: the loop from portal i + 1 on the new list ends exactly where the loop from portal i on the old list does |
| LevelCompilerTombEngine.Compiler.FollowPortal | TombLib/TombLib/LevelData/Compilers/TombEngine/LevelCompilerTombEngine.cs:330-335 | a listed room leaves the list unchanged; an unlisted room is appended and the list becomes exactly `Walk` from that room on the extended list |
| LevelCompilerTombEngine.Compiler.AddWallNeighbours | TombLib/TombLib/LevelData/Compilers/TombEngine/LevelCompilerTombEngine.cs:313-322 | the list becomes the old list followed by the rooms behind the current room's wall portals that were not yet listed, in portal order, without recursion |
| LevelCompilerTombEngine.Compiler.GetAllReachableRooms | TombLib/TombLib/LevelData/Compilers/TombEngine/LevelCompilerTombEngine.cs:299-309 | every room of the level gets exactly the list of `Reached`, which is the up walk from an empty list and then the down walk; other entries are kept. `ReachedIsWalked`, `ReachedWithoutWalls` and `ReachedUpOrDown` say what that list holds |
| LevelCompilerTombEngine.Compiler.ResetReachable | TombLib/TombLib/LevelData/Compilers/TombEngine/LevelCompilerTombEngine.cs:301-302 | every non-null room gets a fresh empty list |
| LevelCompilerTombEngine.Compiler.CollectFrom | TombLib/TombLib/LevelData/Compilers/TombEngine/LevelCompilerTombEngine.cs:306-307 | the room's list becomes exactly the down walk from the room applied to the up walk from the room on an empty list (`Reached`) |
| LevelCompilerTombEngine.Compiler.FindBottomFloor | TombLib/TombLib/LevelData/Compilers/TombEngine/LevelCompilerTombEngine.cs:366-375 | the while loop computes Descend and keeps the sector's world position |
| SectorGeometry.EligibilityTables | TombLib/TombLib/LevelData/SectorGeometry/SectorWall.cs:73-92 | the floor and ceiling tables agree, admit no direction for DiagonalSplit.None and exactly two directions for each diagonal type |
| SectorGeometry.FloorFirstAttempt | TombLib/TombLib/LevelData/SectorGeometry/SectorWall.cs:105-139 | a face attempted for QA or an extra split has that split on top, the matching face identifier, positive height over its bottom edge at some corner, and the floor or the next split (not in the void) as its bottom edge |
| SectorGeometry.FloorFaceAtShape | TombLib/TombLib/LevelData/SectorGeometry/SectorWall.cs:139-158 | a face comes from the first attempt, or, when that one yields none, from an overdraw attempt that needs the split even with QA and (not a wall, or the table allows it) and uses the lowest of the four heights as bottom |
| SectorGeometry.FloorPartFace | TombLib/TombLib/LevelData/SectorGeometry/SectorWall.cs:105-159 | one loop pass yields exactly the face of FloorFaceAt for that split index |
| SectorGeometry.GetVerticalFloorPartFaces | TombLib/TombLib/LevelData/SectorGeometry/SectorWall.cs:97-162 | the loop returns the faces of QA and then of each extra floor split, in index order |
| SectorGeometry.FloorFacesPrefixBound | TombLib/TombLib/LevelData/SectorGeometry/SectorWall.cs:105-159 | after j passes at most j faces exist |
| SectorGeometry.FloorFacesBound | TombLib/TombLib/LevelData/SectorGeometry/SectorWall.cs:97-162 | the floor part has at most one face more than there are extra floor splits |
| SectorGeometry.FloorQaFaceFirst | TombLib/TombLib/LevelData/SectorGeometry/SectorWall.cs:105-159 | when QA yields a face, that face leads the list |
| SectorGeometry.CeilingFirstAttempt | TombLib/TombLib/LevelData/SectorGeometry/SectorWall.cs:175-209 | the mirror of FloorFirstAttempt with WS, the ceiling baseline and reversed comparisons |
| SectorGeometry.CeilingFaceAtShape | TombLib/TombLib/LevelData/SectorGeometry/SectorWall.cs:209-228 | the ceiling overdraw needs the split even with WS and uses the highest of the four heights as top |
| SectorGeometry.CeilingPartFace | TombLib/TombLib/LevelData/SectorGeometry/SectorWall.cs:175-229 | one loop pass yields exactly the face of CeilingFaceAt for that split index |
| SectorGeometry.GetVerticalCeilingPartFaces | TombLib/TombLib/LevelData/SectorGeometry/SectorWall.cs:167-232 | the loop returns the faces of WS and then of each extra ceiling split, in index order |
| SectorGeometry.CeilingFacesPrefixBound | TombLib/TombLib/LevelData/SectorGeometry/SectorWall.cs:175-229 | after j passes at most j faces exist |
| SectorGeometry.CeilingFacesBound | TombLib/TombLib/LevelData/SectorGeometry/SectorWall.cs:167-232 | the ceiling part has at most one face more than there are extra ceiling splits |
| SectorGeometry.CeilingWsFaceFirst | TombLib/TombLib/LevelData/SectorGeometry/SectorWall.cs:175-229 | when WS yields a face, that face leads the list |
| SectorGeometry.MiddleFaceArgs | TombLib/TombLib/LevelData/SectorGeometry/SectorWall.cs:237-261 | the middle face spans from QA (or the floor when QA dips below it at either corner) to WS (or the ceiling when WS rises above it); its bottom is never below the floor and its top never above the ceiling |
| SectorGeometry.NormalizeFloorSplit | TombLib/TombLib/LevelData/SectorGeometry/SectorWall.cs:316-351 | the void flag is set exactly for a wall whose direction the table disallows and a split below or flush with the floor, and then the split is returned unchanged; otherwise the split is snapped to the ceiling, to QA, or kept with neither corner above QA |
| SectorGeometry.NormalizeCeilingSplit | TombLib/TombLib/LevelData/SectorGeometry/SectorWall.cs:356-391 | the mirror of NormalizeFloorSplit with WS, the ceiling void and snapping to the floor |
| SectorGeometry.NormalizedWall | TombLib/TombLib/LevelData/SectorGeometry/SectorWall.cs:266-310 | normalising keeps direction, start and end; an extra list whose main split is in the void is kept unchanged |
| SectorGeometry.FloorTailStep | TombLib/TombLib/LevelData/SectorGeometry/SectorWall.cs:278-290 | one pass of the extra-floor loop cuts the list at a split in the void or keeps it normalised |
| SectorGeometry.CeilingTailStep | TombLib/TombLib/LevelData/SectorGeometry/SectorWall.cs:295-307 | one pass of the extra-ceiling loop cuts the list at a split in the void or keeps it normalised |
| SectorGeometry.NormalizeExtraFloorSplits | TombLib/TombLib/LevelData/SectorGeometry/SectorWall.cs:276-291 | the in-place loop with RemoveRange computes NormalizeFloorTail of the extra floor splits |
| SectorGeometry.NormalizeExtraCeilingSplits | TombLib/TombLib/LevelData/SectorGeometry/SectorWall.cs:293-308 | the in-place loop with RemoveRange computes NormalizeCeilingTail of the extra ceiling splits |
| SectorGeometry.Normalize | TombLib/TombLib/LevelData/SectorGeometry/SectorWall.cs:266-310 | the returned wall is NormalizedWall |
| SectorGeometry.FloorTailNoLonger | TombLib/TombLib/LevelData/SectorGeometry/SectorWall.cs:276-291 | the floor loop never lengthens the list |
| SectorGeometry.CeilingTailNoLonger | TombLib/TombLib/LevelData/SectorGeometry/SectorWall.cs:293-308 | the ceiling loop never lengthens the list |
| SectorGeometry.NormalizeNeverLengthens | TombLib/TombLib/LevelData/SectorGeometry/SectorWall.cs:266-310 | neither extra split list grows under Normalize |
| SectorGeometry.FloorTailCutAtFirstVoid | TombLib/TombLib/LevelData/SectorGeometry/SectorWall.cs:276-291 | the first extra floor split in the void is dropped with all later ones; the earlier ones are kept, normalised |
| SectorGeometry.CeilingTailCutAtFirstVoid | TombLib/TombLib/LevelData/SectorGeometry/SectorWall.cs:293-308 | the first extra ceiling split in the void is dropped with all later ones; the earlier ones are kept, normalised |
| LegacyWallGeometry.SnapCrossing | TombLib/TombLib/LevelData/SectorGeometry/LegacyWallGeometry.cs:38-48 | a split crossing a line (one corner above, the other below) is snapped onto it, any other split is kept; the result never crosses the line |
| LegacyWallGeometry.LegacyFloorQa | TombLib/TombLib/LevelData/SectorGeometry/LegacyWallGeometry.cs:28-49 | QA at or above the ceiling at both corners becomes the ceiling; for non-walls QA is otherwise kept; for walls a QA crossing the floor becomes the floor (the ceiling when the floor itself crosses the ceiling), a QA crossing only the ceiling becomes the ceiling, any other QA is kept, so the result never crosses the ceiling and crosses the floor only when the floor crosses the ceiling |
| LegacyWallGeometry.GetVerticalFloorPartFaces | TombLib/TombLib/LevelData/SectorGeometry/LegacyWallGeometry.cs:9-79 | the method with its step-by-step locals and edVisible flag returns LegacyFloorFaces; it needs a non-empty extra floor list |
| LegacyWallGeometry.LegacyFloorFacesShape | TombLib/TombLib/LevelData/SectorGeometry/LegacyWallGeometry.cs:51-78 | at most two faces, none when the adjusted QA is flush with the floor; a second face only when ED is drawn, then ED is the bottom of the QA face and the ED face follows it |
| LegacyWallGeometry.EdBetweenFloorAndQa | TombLib/TombLib/LevelData/SectorGeometry/LegacyWallGeometry.cs:55-63 | a drawn ED lies between the floor and the adjusted QA at both corners and above the floor at one corner at least |
| LegacyWallGeometry.LegacyCeilingWs | TombLib/TombLib/LevelData/SectorGeometry/LegacyWallGeometry.cs:100-121 | the mirror of LegacyFloorQa: WS at or below the floor at both corners becomes the floor; for walls a WS crossing the ceiling becomes the ceiling (the floor when the ceiling itself crosses the floor), a WS crossing only the floor becomes the floor, any other WS is kept, so the result never crosses the floor |
| LegacyWallGeometry.GetVerticalCeilingPartFaces | TombLib/TombLib/LevelData/SectorGeometry/LegacyWallGeometry.cs:81-151 | the method returns LegacyCeilingFaces; it needs a non-empty extra ceiling list |
| LegacyWallGeometry.LegacyCeilingFacesShape | TombLib/TombLib/LevelData/SectorGeometry/LegacyWallGeometry.cs:123-150 | at most two faces, none when the adjusted WS is flush with the ceiling; a second face only when RF is drawn |
| LegacyWallGeometry.RfBetweenWsAndCeiling | TombLib/TombLib/LevelData/SectorGeometry/LegacyWallGeometry.cs:127-135 | a drawn RF lies between the adjusted WS and the ceiling at both corners and below the ceiling at one corner at least |
| LegacyWallGeometry.LegacyMiddleFaceArgs | TombLib/TombLib/LevelData/SectorGeometry/LegacyWallGeometry.cs:153-173 | the top is capped at the ceiling per corner; the bottom is raised to the floor per corner, with QA's end corner passed first |
| LegacyWallGeometry.LegacyMiddleSwapsBottomCorners | TombLib/TombLib/LevelData/SectorGeometry/LegacyWallGeometry.cs:153-173 | for QA and WS inside floor and ceiling, the legacy middle face has SectorWall's top and SectorWall's bottom with its corners exchanged |
| NgParameterInfo.GetTriggerTypeRange | TombLib/TombLib/NG/NgParameterInfo.cs:13-49 | every version's list starts with the same ten trigger types |
| NgParameterInfo.TriggerTypeRangeMembers | TombLib/TombLib/NG/NgParameterInfo.cs:13-49 | HeavySwitch and HeavyAntitrigger appear exactly from TR4 on, ConditionNg exactly for TRNG, Monkey exactly from TR4 outside TRNG, Skeleton exactly for TR5, TightRope/Crawl/Climb exactly for TR5-legacy versions other than TRNG |
| NgParameterInfo.BaseHasNoLateTriggerType | TombLib/TombLib/NG/NgParameterInfo.cs:15-24 | none of the version-dependent trigger types is among the ten common ones |
| NgParameterInfo.LateTriggerTypeMembers | TombLib/TombLib/NG/NgParameterInfo.cs:26-48 | the version-dependent tail holds ConditionNg exactly for TRNG and the TR4/TR5 types exactly under their version conditions |
| NgParameterInfo.GetTargetTypeRange | TombLib/TombLib/NG/NgParameterInfo.cs:51-85 | ConditionNg offers only ParameterNg; every other trigger type starts with the same eleven target types |
| NgParameterInfo.TargetTypeRangeMembers | TombLib/TombLib/NG/NgParameterInfo.cs:51-85 | for an ordinary trigger: never ParameterNg, FlyByCamera exactly from TR4, the three NG targets exactly for TRNG, LuaScript exactly for TombEngine |
| NgParameterInfo.ValidConditionIsTRNG | TombLib/TombLib/NG/NgParameterInfo.cs:215-228 | a valid condition trigger occurs only in a TRNG level and targets an NG parameter |
| NgParameterInfo.ValidNgTargetIsTRNG | TombLib/TombLib/NG/NgParameterInfo.cs:215-228 | a valid trigger with an action, FMV or timer-field target is an ordinary trigger of a TRNG level |
| NgParameterInfo.ValidOutsideTRNG | TombLib/TombLib/NG/NgParameterInfo.cs:215-228 | outside TRNG a valid trigger uses no condition trigger type and no NG target |
| NgParameterInfo.PackBytesIsSum | TombLib/TombLib/NG/NgParameterInfo.cs:245-247 | timer \| extra << 8 is timer + 256 * extra when both fit in a byte |
| NgParameterInfo.DecodeNGRealTimer | TombLib/TombLib/NG/NgParameterInfo.cs:264-311 | a condition yields a byte timer and an extra below 32 (from the trigger flags); an action yields a low-byte timer whose extra, if any, makes up the packed value; a flip effect yields the whole value or such a split; every other target yields (realTimer, null) |
| NgParameterInfo.DecodeEncodeRoundTrip | TombLib/TombLib/NG/NgParameterInfo.cs:232-311 | for an action or a flip effect with an extra, decoding the encoder's output gives back the timer and the extra when each fits in a byte |
| NgParameterInfo.DecodeEncodeSingleValue | TombLib/TombLib/NG/NgParameterInfo.cs:232-311 | where one value is stored (timer fields, other targets, flip effects without an extra) decoding gives it back whole |
| NgParameterInfo.EncodeWithinUpperBound | TombLib/TombLib/NG/NgParameterInfo.cs:232-262 | when the callbacks keep to the bounds they are given (upperBound & 255 and upperBound >> 8), the packed value never exceeds the upper bound |
| NgParameterInfo.ConditionDecodeIgnoresHighByte | TombLib/TombLib/NG/NgParameterInfo.cs:268-275 | a condition's decode depends only on the low byte of the packed value, so the extra the encoder shifted in by 9 does not come back |
| NgParameterInfo.RoomIndex | TombEditor/Utils.cs:170-183 | the first position of the room in the rearranged list, or -1 |
| NgParameterInfo.ParamValue | TombLib/TombLib/NG/NgParameterInfo.cs:328-345 | fails exactly for a parameter of unsupported type or an object without a script ID or with one above 0xFFFF; null gives 0; a room gives its position in the rearranged room list, cast unchecked to ushort (0xFFFF when absent) |
| NgParameterInfo.GetValue | TombLib/TombLib/NG/NgParameterInfo.cs:328-345 | the method computes ParamValue |
| NgParameterInfo.Or16 | TombLib/TombLib/NG/NgParameterInfo.cs:492-497 | OR-ing into an empty mask gives the operand |
| NgParameterInfo.AnimMask | TombLib/TombLib/NG/NgParameterInfo.cs:490-500 | no anim command gives 0; otherwise 0x8000 plus 0xFF for a negative number, else the number capped at 254 |
| NgParameterInfo.WithExtra | TombLib/TombLib/NG/NgParameterInfo.cs:519-520 | without an extra the second value is kept; with an extra below 256 it goes into the high byte; an extra of 256 or more overflows the checked shift |
| NgParameterInfo.SpliceExtra | TombLib/TombLib/NG/NgParameterInfo.cs:519-520 | the method computes WithExtra |
| NgParameterInfo.ExportToScriptTrigger | TombLib/TombLib/NG/NgParameterInfo.cs:481-579 | the step-by-step build of mask, first and second value computes ExportText |
| NgParameterInfo.ExportRefusals | TombLib/TombLib/NG/NgParameterInfo.cs:502-578 | a condition trigger with an anim command is refused as invalid; a trigger with no NG target throws ScriptNotSupported without an anim command and writes only the mask with one |
| NgParameterInfo.TrimEach | TombLib/TombLib/NG/NgParameterInfo.cs:406 | each token is its part with spaces trimmed |
| NgParameterInfo.ParsePrefix | TombLib/TombLib/NG/NgParameterInfo.cs:411-422 | a parsed prefix has one operand per token |
| NgParameterInfo.ParsePrefixStaysNone | TombLib/TombLib/NG/NgParameterInfo.cs:414-422 | once a token fails to parse the loop returns null whatever follows |
| NgParameterInfo.Splice | TombLib/TombLib/NG/NgParameterInfo.cs:458-468 | the target is the first operand; without decode the timer is the raw third operand, with decode it is the low byte and the extra the high byte |
| NgParameterInfo.Classify | TombLib/TombLib/NG/NgParameterInfo.cs:424-468 | only the first operands 0x8000, 0x9000 (conditions), 0x2000 (flip effect), 0x4000 and 0x5000 (actions) are accepted, each exactly when its catalogue entry exists |
| NgParameterInfo.ImportScript | TombLib/TombLib/NG/NgParameterInfo.cs:395-468 | a trigger is imported only from exactly three tokens that all parse, with an accepted first operand |
| NgParameterInfo.ParseToken | TombLib/TombLib/NG/NgParameterInfo.cs:416-421 | one pass parses "$hex" first and decimal otherwise, as ParseOperand |
| NgParameterInfo.ImportFromScriptTrigger | TombLib/TombLib/NG/NgParameterInfo.cs:395-468 | the array-filling loop and the switch compute ImportScript |
| NgParameterInfo.ThreeTokens | TombLib/TombLib/NG/NgParameterInfo.cs:406 | splitting "a,b,c" at commas and trimming spaces gives the three trimmed parts |
| NgParameterInfo.HexOperandRoundTrip | TombLib/TombLib/NG/NgParameterInfo.cs:417-565 | a ushort written as "$" plus four hex digits parses back to itself |
| NgParameterInfo.DecimalOperandRoundTrip | TombLib/TombLib/NG/NgParameterInfo.cs:419-565 | a ushort written in decimal parses back to itself |
| NgParameterInfo.ScriptTextRoundTrip | TombLib/TombLib/NG/NgParameterInfo.cs:565 | the "$MASK,first,$SECOND" text parses back to the same three operands |
| NgParameterInfo.AnimCommandTextDoesNotImport | TombLib/TombLib/NG/NgParameterInfo.cs:564 | the anim-command form writes the mask as a negative short, which the ushort parse refuses, so that text never imports |
| NgParameterInfo.SpliceWithExtra | TombLib/TombLib/NG/NgParameterInfo.cs:519-520 | the second value built by the export splits back into the timer and the extra it came from |
| NgParameterInfo.ExportImportRoundTrip | TombLib/TombLib/NG/NgParameterInfo.cs:395-579 | exporting a trigger without an anim command and importing the text gives back its target, timer and (when the entry has one) extra values |
| NgParameterInfo.ConditionRoundTrip | TombLib/TombLib/NG/NgParameterInfo.cs:504-521 | a condition trigger's operands classify back to its values |
| NgParameterInfo.FlipEffectRoundTrip | TombLib/TombLib/NG/NgParameterInfo.cs:526-540 | a flip effect's operands classify back to its values |
| NgParameterInfo.ActionRoundTrip | TombLib/TombLib/NG/NgParameterInfo.cs:543-557 | an action's operands classify back to its values |
| TrCatalog.Lookup | TombLib/Wad/Catalog/TrCatalog.cs:79-85 | TryGetValue on a sorted list or on the game dictionary: a found value is stored under that key; nothing found means no entry has that key |
| TrCatalog.LookupFindsStored | TombLib/Wad/Catalog/TrCatalog.cs:80-85 | in a key-sorted list every stored pair is found by its key |
| TrCatalog.GameFoundByVersion | TombLib/Wad/Catalog/TrCatalog.cs:56 | in a dictionary with distinct versions every stored game is found by its version |
| TrCatalog.PredictSoundMapSize | TombLib/Wad/Catalog/TrCatalog.cs:58-75 | unknown versions fail; an NG TR4 level with demo data gets the demo-data count; every other known version gets 256, 370 or 450 |
| TrCatalog.ItemName | TombLib/Wad/Catalog/TrCatalog.cs:77-86 | the name stored for the id in the version's table, "Unknown #id" when the version or the id is absent |
| TrCatalog.NameLookups | TombLib/Wad/Catalog/TrCatalog.cs:77-178 | GetMoveableName, GetStaticName and GetSpriteSequenceName return the stored item's name for every stored id of a well-formed catalog, and "Unknown #id" for an id the table lacks |
| TrCatalog.GetMoveableSkin | TombLib/Wad/Catalog/TrCatalog.cs:88-97 | the stored skin id, or the id itself when the version or the id is absent |
| TrCatalog.IsMoveableAI | TombLib/Wad/Catalog/TrCatalog.cs:99-109 | true exactly when the version and the id are present and the moveable is marked as an AI object |
| TrCatalog.LoadedMoveable | TombLib/Wad/Catalog/TrCatalog.cs:340-360 | a moveable loaded without use_body_from is its own skin; the AI flag is set exactly by a positive ai attribute |
| TrCatalog.LoadedMoveableSkin | TombLib/Wad/Catalog/TrCatalog.cs:340-360 | such a loaded moveable is reported as its own skin by GetMoveableSkin and as AI by IsMoveableAI exactly when its ai attribute is positive |
| TrCatalog.FirstKeyWhere | TombLib/Wad/Catalog/TrCatalog.cs:131-143 | a key found belongs to an entry satisfying the predicate; nothing found means no entry does |
| TrCatalog.FirstKeyWhereIsSmallest | TombLib/Wad/Catalog/TrCatalog.cs:131-143 | in a key-sorted list the key found is the smallest matching key |
| TrCatalog.GetItemIndex | TombLib/Wad/Catalog/TrCatalog.cs:122-147 | an absent version gives no index; when a moveable's name equals the name ignoring case an index is returned with isMoveable set, and that index is a matching moveable's; otherwise, when a static matches, the index of a matching static is returned with isMoveable clear; with no match in either table there is no index |
| TrCatalog.GetItemIndexIsSmallest | TombLib/Wad/Catalog/TrCatalog.cs:131-144 | with ascending keys the index returned is the smallest matching key of the table it came from |
| TrCatalog.GetOriginalSoundName | TombLib/Wad/Catalog/TrCatalog.cs:149-158 | the stored sound name, "UNKNOWN_SOUND_id" when the version or the id is absent |
| TrCatalog.IsSoundFixedByDefault | TombLib/Wad/Catalog/TrCatalog.cs:180-189 | true exactly when the version and the sound are present and the sound is fixed by default |
| TrCatalog.TryGetSoundInfoIdByDescription | TombLib/Wad/Catalog/TrCatalog.cs:160-167 | an absent version fails as the dictionary indexer throws; the id is cast to int unchecked, so the result is always an int; -1 when no sound has that description; otherwise the cast of the id of a sound with that description, and any result other than -1 is one |
| TrCatalog.SoundInfoIdIsSmallest | TombLib/Wad/Catalog/TrCatalog.cs:160-167 | with sorted sound ids the result is the cast of the smallest id with that description |
| TrCatalog.MaxSoundIdReadsAsNotFound | TombLib/Wad/Catalog/TrCatalog.cs:160-167 | a sound with id 0xFFFFFFFF that matches first gives -1, the same as no match, because of the unchecked cast |
| TrCatalog.FindStateByName | TombLib/Wad/Catalog/TrCatalog.cs:248 | a state found belongs to an entry of that object whose lower-cased name contains the lower-cased searched name |
| TrCatalog.ReversedSearchFindsLast | TombLib/Wad/Catalog/TrCatalog.cs:202-210 | searching the reversed list of other games finds the match of the latest-added other game |
| TrCatalog.SearchGames | TombLib/Wad/Catalog/TrCatalog.cs:205-209 | the loop stops at the first game of the list that yields a match |
| TrCatalog.GetAnimationName | TombLib/Wad/Catalog/TrCatalog.cs:191-214 | the version's own entry, else the latest-added other game's entry, else "Animation n" |
| TrCatalog.GetStateName | TombLib/Wad/Catalog/TrCatalog.cs:216-239 | the version's own entry, else the latest-added other game's entry, else "Unknown state n" |
| TrCatalog.TryToGetStateID | TombLib/Wad/Catalog/TrCatalog.cs:241-259 | the version's own match, else the earliest-added other game's match (no reversal here), else -1 |
| TrCatalog.AnimationNameSource | TombLib/Wad/Catalog/TrCatalog.cs:191-214 | the name is the default text or the name of a matching entry in some game; the version's own entry takes precedence |
| TrCatalog.StateNameSource | TombLib/Wad/Catalog/TrCatalog.cs:216-239 | the name is the default text or the name of a matching entry in some game; when the game's own entry has the state, its name wins |
| TrCatalog.StateIdByNameSource | TombLib/Wad/Catalog/TrCatalog.cs:241-259 | -1 exactly when no game has a matching entry; any other id is the state of a matching entry in some game |
| TrCatalog.GetVersionString | TombLib/Wad/Catalog/TrCatalog.cs:288-307 | unknown versions fail; known versions get a non-empty name |
| TrCatalog.VersionStringsDistinct | TombLib/Wad/Catalog/TrCatalog.cs:288-307 | no two known versions share a name |
| TrCatalog.NamesOfStored | TombLib/Wad/Catalog/TrCatalog.cs:261-264 | projecting a sorted table to names keeps each key's own name |
| TrCatalog.GetAllMoveables | TombLib/Wad/Catalog/TrCatalog.cs:261-264 | an absent version fails; the keys are exactly the moveable ids of the version |
| TrCatalog.GetAllStatics | TombLib/Wad/Catalog/TrCatalog.cs:266-269 | an absent version fails; the keys are exactly the static ids of the version |
| TrCatalog.GetAllSpriteSequences | TombLib/Wad/Catalog/TrCatalog.cs:271-274 | an absent version fails; the keys are exactly the sprite sequence ids of the version |
| TrCatalog.GetAllSounds | TombLib/Wad/Catalog/TrCatalog.cs:276-279 | an absent version fails; the keys are exactly the sound ids of the version |
| TrCatalog.FixedNamesExactly | TombLib/Wad/Catalog/TrCatalog.cs:281-286 | the fixed-sound table is keyed by exactly the ids of the sounds marked fixed by default |
| TrCatalog.GetAllFixedByDefaultSounds | TombLib/Wad/Catalog/TrCatalog.cs:281-286 | an absent version fails; the keys are exactly the ids of the version's sounds marked fixed by default |
| Text.NatToString | TombLib/TombLib/NG/NgParameterInfo.cs:565 | the decimal text of a ushort operand: at least one digit, all digits, no leading zero |
| Text.DecimalRoundTrip | TombLib/TombLib/NG/NgParameterInfo.cs:565 | the decimal text reads back as the number it was written from |
| Text.ToHexX4 | TombLib/TombLib/NG/NgParameterInfo.cs:565 | ToString("X4") gives exactly four hexadecimal digits |
| Text.HexDigitsRoundTrip | TombLib/TombLib/NG/NgParameterInfo.cs:565 | fixed-width hexadecimal digits read back as the number written, when it fits the width |
| Text.Trim | TombLib/TombLib/NG/NgParameterInfo.cs:406 | the trimmed token neither starts nor ends with the trimmed character and is no longer than the token |
| Text.TrimUnchanged | TombLib/TombLib/NG/NgParameterInfo.cs:406 | a token without the character at either end is its own trim |
| Text.TrimLeading | TombLib/TombLib/NG/NgParameterInfo.cs:417 | trimming '$' from a '$'-prefixed operand leaves the operand |
| Text.TrimTrailing | TombLib/TombLib/NG/NgParameterInfo.cs:406 | a trailing trimmed character is removed and nothing else |
| Text.ParseUShort | TombLib/TombLib/NG/NgParameterInfo.cs:419 | ushort.TryParse succeeds only with a value that fits a ushort |
| Text.ParseUShortHex | TombLib/TombLib/NG/NgParameterInfo.cs:417 | hexadecimal ushort.TryParse succeeds only with a value that fits a ushort |
| Text.ParseUShortRoundTrip | TombLib/TombLib/NG/NgParameterInfo.cs:419 | every ushort written in decimal parses back to itself |
| Text.ParseUShortHexRoundTrip | TombLib/TombLib/NG/NgParameterInfo.cs:417 | every ushort written with "X4" parses back to itself as hexadecimal |
| Text.Split | TombLib/TombLib/NG/NgParameterInfo.cs:406 | String.Split yields at least one piece and no piece contains the separator |
| Text.JoinSplit | TombLib/TombLib/NG/NgParameterInfo.cs:406 | joining the pieces of a split with the separator gives back the string |
| Text.SplitJoin | TombLib/TombLib/NG/NgParameterInfo.cs:406 | splitting a join of separator-free pieces gives back the pieces |
| Text.ToLower | TombLib/Wad/TrLevels/TrLevel.cs:43 | lower-casing keeps the length and maps each character on its own |
| Text.ToLowerAppend | TombLib/Wad/TrLevels/TrLevel.cs:43 | lower-casing distributes over concatenation |
| Text.TrimWhiteSpace | TombLib/Wad/TrLevels/TrLevel.cs:43 | String.Trim() leaves no white space at either end |
| Text.TrimPadded | TombLib/Wad/TrLevels/TrLevel.cs:43 | a file name ending in an extension followed by white space still ends with that extension once trimmed |
| Bits.AddThenSubtract | TombEditor/Utils.cs:135-153 | in unchecked int arithmetic, subtracting d after adding it gives back any int |
| Bits.SubtractThenAdd | TombEditor/Utils.cs:135-153 | in unchecked int arithmetic, adding d after subtracting it gives back any int |
| Bits.WrappedDifference | TombEditor/Utils.cs:140-168 | the unchecked difference of two wrapped values is the wrapped difference of the originals |
| Bits.Int32 | TombLib/Wad/TrLevels/TrLevel.cs:63 | C#'s unchecked int result, as in the (int) cast here and in the unchecked int additions of TombEditor/Utils.cs:135-168: a value in the 32-bit range congruent to its operand modulo 2^32, and the operand itself when it already fits |
| TrLevelReader.FieldAt | TombLib/Wad/TrLevels/TrLevel.cs:42 | a little-endian field read lies in the range of its kind (byte, ushort, short, uint, int) |
| TrLevelReader.RecordAt | TombLib/Wad/TrLevels/TrLevel.cs:386-396 | a record read field by field has one in-range value per field of its layout |
| TrLevelReader.TexturedQuadLayout | TombLib/Wad/TrLevels/TrLevel.cs:223-235 | a textured quad takes 12 bytes in TR4/TR5 and 10 otherwise |
| TrLevelReader.TexturedTriangleLayout | TombLib/Wad/TrLevels/TrLevel.cs:237-247 | a textured triangle takes 10 bytes in TR4/TR5 and 8 otherwise |
| TrLevelReader.AnimationLayout | TombLib/Wad/TrLevels/TrLevel.cs:312-335 | an animation record takes 40 bytes in TR4/TR5 and 32 otherwise |
| TrLevelReader.MoveableLayout | TombLib/Wad/TrLevels/TrLevel.cs:383-396 | a moveable record takes 20 bytes in TR5 (with its padding ushort) and 18 otherwise |
| TrLevelReader.StaticMeshLayout | TombLib/Wad/TrLevels/TrLevel.cs:401-428 | a static mesh record takes 32 bytes |
| TrLevelReader.ObjectTextureLayout | TombLib/Wad/TrLevels/TrLevel.cs:523-538 | an object texture record takes 22 bytes in TR4/TR5 (with new flags) and 20 otherwise, before the skipped tail |
| TrLevelReader.SpriteTextureLayout | TombLib/Wad/TrLevels/TrLevel.cs:460-475 | a sprite texture record takes 16 bytes |
| TrLevelReader.SpriteSequenceLayout | TombLib/Wad/TrLevels/TrLevel.cs:477-485 | a sprite sequence record takes 8 bytes |
| TrLevelReader.SoundDetailsLayout | TombLib/Wad/TrLevels/TrLevel.cs:596-618 | a sound details record takes 8 bytes in every version, as four 16-bit fields in TR1/TR2 and six fields otherwise |
| TrLevelReader.SkipLengthPlain | TombLib/Wad/TrLevels/TrLevel.cs:489 | (int)count * size does not wrap while the product is below 2^31 |
| TrLevelReader.SkipLengthWraps | TombLib/Wad/TrLevels/TrLevel.cs:489 | a large count wraps: 2^28 cameras skip nothing, and a count of 0xFFFFFFFF gives a negative length |
| TrLevelReader.Available | TombLib/Wad/TrLevels/TrLevel.cs:130 | ReadBytes returns at most n bytes, exactly the next n when they are there, and fewer only at the end of the data |
| TrLevelReader.Reader.constructor | TombLib/Wad/TrLevels/TrLevel.cs:116-119 | a new reader is at position 0 of its data |
| TrLevelReader.Reader.ReadField | TombLib/Wad/TrLevels/TrLevel.cs:42 | a primitive read succeeds exactly when the field fits, returns its value and advances by its width; otherwise it fails with end of stream and does not move |
| TrLevelReader.Reader.ReadRecord | TombLib/Wad/TrLevels/TrLevel.cs:386-396 | a record read succeeds exactly when the record fits and yields its fields in order |
| TrLevelReader.Reader.ReadRecords | TombLib/Wad/TrLevels/TrLevel.cs:340-347 | count records succeed exactly when they all fit; record k is the one at k times the record size |
| TrLevelReader.Reader.ReadCounted | TombLib/Wad/TrLevels/TrLevel.cs:338-347 | the number of records equals the count field, and they follow it |
| TrLevelReader.Reader.ReadMoveables | TombLib/Wad/TrLevels/TrLevel.cs:380-396 | as many moveables as the u32 count, each the first six fields of its record (the TR5 padding dropped) |
| TrLevelReader.Reader.ReadAnimationTables | TombLib/Wad/TrLevels/TrLevel.cs:309-360 | animations, state changes and dispatches have the arity of their records |
| TrLevelReader.Reader.SkipPalettes | TombLib/Wad/TrLevels/TrLevel.cs:48-53 | the two palettes take 1792 bytes; the skip succeeds exactly when they fit |
| TrLevelReader.Reader.ReadSpriteTables | TombLib/Wad/TrLevels/TrLevel.cs:459-485 | as many sprite textures as the u32 count; both tables have their records' arity |
| TrLevelReader.Reader.ReadModelTables | TombLib/Wad/TrLevels/TrLevel.cs:380-429 | as many moveables as the u32 count; moveables and static meshes have their records' arity |
| TrLevelReader.Reader.Skip | TombLib/Wad/TrLevels/TrLevel.cs:552 | a skip advances by the bytes ReadBytes returns |
| TrLevelReader.Reader.ReadFieldArray | TombLib/Wad/TrLevels/TrLevel.cs:365-378 | count values succeed exactly when they all fit, lie in range and are the values stored |
| TrLevelReader.Reader.ReadValues | TombLib/Wad/TrLevels/TrLevel.cs:304-307 | as many values as the u32 count, the values stored after it |
| TrLevelReader.Reader.ReadBytes | TombLib/Wad/TrLevels/TrLevel.cs:63 | a negative count fails and does not move; otherwise the available bytes up to n are returned and consumed |
| TrLevelReader.Reader.SkipCounted | TombLib/Wad/TrLevels/TrLevel.cs:488-489 | the skip fails exactly when the count is missing or the wrapped length is negative; otherwise the count is returned and the available bytes are skipped |
| TrLevelReader.Reader.Seek | TombLib/Wad/TrLevels/TrLevel.cs:175 | a seek past int.MaxValue fails and does not move; any other advances by the offset |
| TrLevelReader.MeshSizeIsConsumed | TombLib/Wad/TrLevels/TrLevel.cs:183-300 | for the five known versions a mesh's MeshSize equals the bytes read for it |
| TrLevelReader.MeshSizeOtherVersion | TombLib/Wad/TrLevels/TrLevel.cs:276-287 | for an unknown version word MeshSize counts two bytes more per textured face than are read |
| TrLevelReader.PaddedSize | TombLib/Wad/TrLevels/TrLevel.cs:289-292 | the bytes a mesh advances totalBytes by are a multiple of four, at most two beyond its length, and at least 20 |
| TrLevelReader.TotalSize | TombLib/Wad/TrLevels/TrLevel.cs:294-299 | totalBytes after any run of meshes is a multiple of four and at least 20 per mesh |
| TrLevelReader.PointersOrdered | TombLib/Wad/TrLevels/TrLevel.cs:294-299 | mesh pointers are multiples of four and each mesh with its padding ends before the next one starts |
| TrLevelReader.ObjectTextureOf | TombLib/Wad/TrLevels/TrLevel.cs:523-538 | attributes and tile come first; new flags only for TR4/TR5 (zero otherwise); then four vertices of four bytes |
| TrLevelReader.CompressedBlock | TombLib/Wad/TrLevels/TrLevel.cs:79-81 | a compressed block returns at most its (int) compressed size and stays inside the data |
| TrLevelReader.SoundDetailsOf | TombLib/Wad/TrLevels/TrLevel.cs:596-618 | TR1/TR2 sound details get range 8 and pitch 0; later versions read volume, range, chance and pitch as bytes |
| TrLevelReader.RoomCount | TombLib/Wad/TrLevels/TrLevel.cs:122 | the room count is a u16 except for TR5, where it is a u32 |
| TrLevelReader.SoundMapSizeAgreesWithCatalog | TombLib/Wad/TrLevels/TrLevel.cs:582-593 | the sound map read has the size the catalog predicts for the same game, and only an unknown version reads none |
| TrLevelReader.SkipFits | TombLib/Wad/TrLevels/TrLevel.cs:489 | a skip that lies inside data of at most int.MaxValue bytes does not wrap |
| TrLevelReader.BoxesFitPlain | TombLib/Wad/TrLevels/TrLevel.cs:502-511 | boxes, overlaps and zones that lie inside the data do not wrap |
| TrLevelReader.EffectiveVersion | TombLib/Wad/TrLevels/TrLevel.cs:42-43 | the level is read as TR5 exactly when the header says TR5, or TR4 in a ".trc" file; no other version changes |
| TrLevelReader.TrimmedName | TombLib/Wad/TrLevels/TrLevel.cs:43 | a name ending in an extension followed by white space still ends with that extension once lower-cased and trimmed |
| TrLevelReader.TrcNameQualifies | TombLib/Wad/TrLevels/TrLevel.cs:43 | a TR4 header in a file named with ".trc" in any case, then white space, is read as TR5 |
| TrLevelReader.OtherNameStaysTr4 | TombLib/Wad/TrLevels/TrLevel.cs:43 | a TR4 header in a name whose last character before any white space is not 'c' stays TR4 |
| TrLevelReader.TrLevel.constructor | TombLib/Wad/TrLevels/TrLevel.cs:17-36 | a new level has empty tables |
| TrLevelReader.TrLevel.ReadMesh | TombLib/Wad/TrLevels/TrLevel.cs:192-287 | a mesh read consumes exactly its accounted size, is well shaped and its MeshSize is the numBytes total |
| TrLevelReader.TrLevel.ReadNormals | TombLib/Wad/TrLevels/TrLevel.cs:204-215 | n > 0 normals or -n shades, never both, with the bytes numBytes adds for them |
| TrLevelReader.TrLevel.ReadMeshFaces | TombLib/Wad/TrLevels/TrLevel.cs:217-287 | textured faces with their lighting field in TR4/TR5, coloured faces only for TR1-TR3, and the bytes numBytes adds |
| TrLevelReader.TrLevel.ReadTexturedFaces | TombLib/Wad/TrLevels/TrLevel.cs:221-247 | textured quads and triangles carry a lighting field exactly in TR4/TR5 |
| TrLevelReader.TrLevel.ReadColouredFaces | TombLib/Wad/TrLevels/TrLevel.cs:249-274 | coloured quads take 10 bytes and triangles 8 |
| TrLevelReader.TrLevel.ReadPaddedMesh | TombLib/Wad/TrLevels/TrLevel.cs:289-299 | a mesh is padded to a multiple of four bytes and gets totalBytes as its pointer |
| TrLevelReader.TrLevel.ReadMeshes | TombLib/Wad/TrLevels/TrLevel.cs:183-302 | the mesh table is replaced by meshes read while totalBytes is below numMeshData * 2, with running pointers |
| TrLevelReader.TrLevel.ReadRooms | TombLib/Wad/TrLevels/TrLevel.cs:120-177 | each TR1-TR4 room reads two bytes of light count from the file reader, not the level data; TR5 rooms leave it alone |
| TrLevelReader.TrLevel.SkipClassicRoom | TombLib/Wad/TrLevels/TrLevel.cs:127-166 | a classic room moves the file reader by two bytes and fails when the file has none left |
| TrLevelReader.TrLevel.SkipRoomGeometry | TombLib/Wad/TrLevels/TrLevel.cs:129-140 | room info, data words, portals and sectors take at least 20 bytes |
| TrLevelReader.TrLevel.SkipRoomLights | TombLib/Wad/TrLevels/TrLevel.cs:142-153 | succeeds exactly when the ambient words (2 bytes for TR1, 6 for TR2, 4 otherwise) and the light count are present; the count comes from the file reader, which moves on by 2, and the level data moves on by the ambient words plus numLights times 18 (TR1), 24 (TR2, TR3) or 46 (TR4) bytes, or to its end when fewer are left |
| TrLevelReader.TrLevel.SkipRoomStatics | TombLib/Wad/TrLevels/TrLevel.cs:155-165 | succeeds exactly when the static count is present; the level data moves on by the count, numStatics times 18 (TR1) or 20 bytes, and 4 (TR1, TR2) or 7 (TR3, TR4) bytes of flags, or to its end when fewer are left |
| TrLevelReader.TrLevel.SkipTr5Room | TombLib/Wad/TrLevels/TrLevel.cs:169-176 | a TR5 room succeeds exactly when its header fits and the seek stays within int.MaxValue, and ends past its size field |
| TrLevelReader.TrLevel.ReadAnimations | TombLib/Wad/TrLevels/TrLevel.cs:304-360 | mesh pointers, as many as their count, are the stored values; the animation tables are shaped |
| TrLevelReader.TrLevel.ReadAnimationData | TombLib/Wad/TrLevels/TrLevel.cs:362-378 | anim commands, as many as their count, are the stored values; all three tables lie in range |
| TrLevelReader.TrLevel.ReadModels | TombLib/Wad/TrLevels/TrLevel.cs:380-429 | as many moveables as their count; moveables and static meshes are shaped |
| TrLevelReader.TrLevel.AppendObjectTextures | TombLib/Wad/TrLevels/TrLevel.cs:523-542 | textures are appended to the list, count of them on success, and a failure keeps those read before it |
| TrLevelReader.TrLevel.ReadTextures | TombLib/Wad/TrLevels/TrLevel.cs:431-485 | TR1/TR2 object textures take their count from the file reader and fail when it is exhausted; later versions add none here |
| TrLevelReader.TrLevel.SkipBoxes | TombLib/Wad/TrLevels/TrLevel.cs:502-511 | boxes, overlaps and zones that lie inside the data are skipped exactly |
| TrLevelReader.TrLevel.ReadLaterObjectTextures | TombLib/Wad/TrLevels/TrLevel.cs:517-543 | TR3-TR5 object textures follow their count (after a 5-byte marker for TR4/TR5); other versions add none |
| TrLevelReader.TrLevel.ReadScene | TombLib/Wad/TrLevels/TrLevel.cs:487-543 | the scene sections only append well-formed object textures |
| TrLevelReader.TrLevel.SkipItems | TombLib/Wad/TrLevels/TrLevel.cs:545-576 | items, light map, palette, cinematic frames and AI objects are skipped |
| TrLevelReader.TrLevel.ReadSounds | TombLib/Wad/TrLevels/TrLevel.cs:582-630 | the sound map grows by the version's length with the stored values; details and sample indices are appended; TR1/TR2 details get the classic range |
| TrLevelReader.TrLevel.ReadSoundDetails | TombLib/Wad/TrLevels/TrLevel.cs:596-618 | a u32 count, then that many 8-byte records; the result has that many details, each the SoundDetailsOf of its stored record, and TR1/TR2 details all get the classic range and pitch |
| TrLevelReader.TrLevel.ReadGeometry | TombLib/Wad/TrLevels/TrLevel.cs:120-302 | with the file reader at its end only a roomless TR1-TR4 level reads its geometry; the mesh table is well formed |
| TrLevelReader.TrLevel.ReadObjects | TombLib/Wad/TrLevels/TrLevel.cs:304-429 | the animation tables, animation data and models are shaped and in range |
| TrLevelReader.TrLevel.ReadTail | TombLib/Wad/TrLevels/TrLevel.cs:431-630 | a TR1/TR2 tail fails with the file reader exhausted; textures are appended well formed; the sound map grows by the version's length |
| TrLevelReader.TrLevel.ReadLevelData | TombLib/Wad/TrLevels/TrLevel.cs:116-631 | TR1/TR2 level data fails while the file reader is at its end; TR3 then succeeds only without rooms; the mesh table is well formed |
| TrLevelReader.TrLevel.ReadVersion | TombLib/Wad/TrLevels/TrLevel.cs:42-43 | the version word is read, made TR5 for a TR4 header in a ".trc" file, and a short file fails unchanged |
| TrLevelReader.TrLevel.ReadTextureTiles | TombLib/Wad/TrLevels/TrLevel.cs:48-93 | TR1-TR3 tiles leave the texture map alone; TR4/TR5 need their tile counts |
| TrLevelReader.TrLevel.ReadTextureBlocks | TombLib/Wad/TrLevels/TrLevel.cs:72-93 | the inflated first block becomes the texture map |
| TrLevelReader.TrLevel.SkipCompressedBlocks | TombLib/Wad/TrLevels/TrLevel.cs:84-92 | the 16-bit and misc blocks are read and discarded |
| TrLevelReader.TrLevel.ReadCompressedBlock | TombLib/Wad/TrLevels/TrLevel.cs:79-81 | a block succeeds exactly when its sizes fit and its (int) compressed size is not negative, and returns its bytes |
| TrLevelReader.TrLevel.ReadLevelBytes | TombLib/Wad/TrLevels/TrLevel.cs:95-114 | TR1-TR3 take the rest of the file, TR4 an inflated block, other versions a block after 32 skipped bytes |
| TrLevelReader.TrLevel.ReadHeader | TombLib/Wad/TrLevels/TrLevel.cs:40-114 | the version is set from the header; a TR1-TR3 file leaves the file reader at its end |
| TrLevelReader.TrLevel.LoadLevel | TombLib/Wad/TrLevels/TrLevel.cs:38-651 | a short file fails; a success returns true; TR1/TR2 files never load; TR3 loads only without rooms; the mesh table is well formed; a TR4/TR5 load appends the wave samples stored after the level data, other versions leave the sample list alone |
| TrLevelReader.TrLevel.ReadLevelBody | TombLib/Wad/TrLevels/TrLevel.cs:116-646 | the level data is parsed by its own reader, then TR4/TR5 samples are read from the file reader; the facts of ReadLevelData and ReadSamples carry over |
| TrLevelReader.SamplesFrom | TombLib/Wad/TrLevels/TrLevel.cs:636-645 | count samples read from a position are exactly count blocks when all headers fit |
| TrLevelReader.SamplesNeedHeaders | TombLib/Wad/TrLevels/TrLevel.cs:636-645 | reading count samples needs at least 8 bytes of header per sample |
| TrLevelReader.SamplesPendingStep | TombLib/Wad/TrLevels/TrLevel.cs:637-644 | reading one block moves the loop's view of the list one sample on |
| TrLevelReader.TrLevel.ReadSamples | TombLib/Wad/TrLevels/TrLevel.cs:633-645 | succeeds exactly when the u32 count is present and every sample's header fits with a non-negative size; on success the samples stored after the count are appended to the sample list |
| TrLevelReader.TrLevel.ReadSampleList | TombLib/Wad/TrLevels/TrLevel.cs:636-645 | appends exactly the count samples from the reader's position to the sample list, and fails exactly when one of them is cut off |
| TrLevelReader.TrLevel.ReadSampleBlocks | TombLib/Wad/TrLevels/TrLevel.cs:636-645 | the loop returns exactly the count blocks `SamplesFrom` reads from the reader's position, in file order, and fails exactly when that list does not exist |

## Left out

- User interface, plugin, designer and GPU files, and the floating-point geometry, camera and exporter code: they hold no integer logic of the core.
- Floating-point conversions in the compiler (positions, angles, FOV, roll, speed, `Math.Round`), `PackColorTo16Bit` and the texture packer: floating point.
- The compiler's other phases (room building, level writing) and `GetTRNGVersion`, which reads files: outside the bookkeeping.
- Room methods, `TrCatalog.GetLimit` and `GetSubstituteID`, and the catalog overloads the compiler calls: these are known only from their call sites. They are parameters (the AI test and the substitute id of `ItemSettings`, room and box indices).
- The order of `TRVersion.Game` and `Legacy()`: defined outside the modelled files. They are given as a `VersionOrder` value.
- NgCatalog and `NgParameterRange.ParameterMatches`: defined outside the modelled files. They are given as maps and a function parameter.
- `FixTriggerParameter`, the object linking at the end of script import: outside the modelled files. Import yields the trigger before that step.
- The `withComment` text of script export: it formats names from the catalog, which is not part of this model.
- `SectorFace.Create*FaceData` and the `Get*Face` identifiers are not part of this model. The face constructors are function parameters that return an optional face.
- `TrCatalog.LoadCatalog`: it parses XML. Only the moveable record it builds (`LoadedMoveable`) is modelled.
- File opening and ZLib decompression in `TrLevel.LoadLevel`: the file's bytes are a parameter and decompression is an `inflate` function parameter.
- The uncompressed wave size of each TR4/TR5 sample is read and dropped, as in the source; `tr_sample` keeps only the compressed bytes.
- BinaryReaderEx is not part of this model. `ReadBlockArray` is read as consecutive little-endian records.
- The mapping from the version word to `TrVersion` is a parameter (`versionOf`): the enumeration's numeric values are not in the modelled files.
- Room contents, palettes, texture tiles, boxes, items, cameras and the other skipped sections are consumed by count. Their contents are not kept.
- When a table read fails part-way, the partial contents of that table are not stated: the load fails as a whole.
- `ToLower` folds ASCII letters only: invariant-culture case folding of other letters is not modelled.
- `FindBottomFloor` is modelled with a fuel bound: on a cycle of full floor portals the source loops forever, and the model stops after the given number of steps.
- `List.Sort` on flyby cameras is modelled by a stable insertion sort. .NET's sort is not stable, so the order of cameras with equal keys may differ. The duplicate check reports such pairs either way.
- `Editor`'s DirectX device, effects, texture loading and UI forwarding: outside the selection state.
- `RetryFor` (timing and threads), `MixWith`, `ToWinFormsColor` and `ToFloatColor` (floating point), and `TryFindAbsolutePath` (file system).
- TrLevelReader.TrLevel.ReadModels: states the counts and arity of the moveable and static-mesh tables, not each field's value.
- TrLevelReader.TrLevel.ReadObjects: states the shape of the animation tables, animation data and models, not the stored values.
- TrLevelReader.Reader.ReadSpriteTables: states the count and arity of the sprite tables, not the stored values.
- TrLevelReader.TrLevel.ReadScene: states only what it does to the object textures, not the positions of the skipped sections.
- TrLevelReader.TrLevel.SkipRoomGeometry: states a lower bound on the bytes consumed, not the exact position.
- TrLevelReader.TrLevel.SkipItems: states only that the item count was present, not the position after the skipped sections.
- TrLevelReader.TrLevel.ReadLevelData: does not restate the texture and sound facts that `ReadTail` proves.
- TrLevelReader.TrLevel.ReadSampleList: states nothing about the sample list when a sample is cut off. The source has then already added the samples before it; the model reads the whole list first and appends nothing.
- TrLevelReader.TrLevel.LoadLevel: does not restate the texture and sound facts that `ReadTail` proves.
- EditorUtils.Offset, EditorUtils.OffsetNeg, EditorUtils.InflateXY, EditorUtils.Inflate: the exact position of each edge is promised only when no edge overflows an int. With overflow, only the int width and height are stated (`OffsetKeepsSize`, `InflateGrowsSize`), and `InflateWrapsAtMinValue` shows that containment can then fail.
- TrCatalog.PredictSoundMapSize: states the set of sizes; the exact size per version is tied to the reader by `SoundMapSizeAgreesWithCatalog`.
