/** What room ingestion promises: first-match selection, verbatim copies, failure on a missing kind. */
module LevelLoaderProperties {
  import opened Wrappers
  import opened SeqFind
  import opened Ldtk
  import opened LevelLoader

  /** A search that already finds a value finds the same one with anything appended. */
  lemma {:induction false} FindMapIgnoresAppended<T, U>(s: seq<T>, t: seq<T>, f: T -> Option<U>)
    requires FindMap(s, f).Some?
    ensures FindMap(s + t, f) == FindMap(s, f)
  {
    if f(s[0]).None? {
      FindMapIgnoresAppended(s[1..], t, f);
      assert (s + t)[1..] == s[1..] + t;
    }
  }

  /** The layers a projection accepts are exactly the layers of its kind. */
  lemma {:induction false} MatchesAreLayersOfKind<U>(layers: seq<LayerInstance>, f: LayerInstance -> Option<U>, k: LayerKind)
    requires forall l :: f(l).Some? <==> Kind(l) == k
    ensures Matches(layers, f) == OfKind(layers, k)
  {
    if |layers| > 0 {
      MatchesAreLayersOfKind(layers[1..], f, k);
    }
  }

  /** Inserting or removing a layer of another kind leaves the layers of kind `k` as they were. */
  lemma {:induction false} LayersOfOtherKindsIgnored(s1: seq<LayerInstance>, x: LayerInstance, s2: seq<LayerInstance>, k: LayerKind)
    requires Kind(x) != k
    ensures OfKind(s1 + [x] + s2, k) == OfKind(s1 + s2, k)
  {
    if |s1| == 0 {
      assert s1 + [x] + s2 == [x] + s2;
      assert ([x] + s2)[1..] == s2;
      assert s1 + s2 == s2;
    } else {
      LayersOfOtherKindsIgnored(s1[1..], x, s2, k);
      assert (s1 + [x] + s2)[0] == s1[0] && (s1 + [x] + s2)[1..] == s1[1..] + [x] + s2;
      assert (s1 + s2)[0] == s1[0] && (s1 + s2)[1..] == s1[1..] + s2;
    }
  }

  /** A kind occurs in a layer list exactly when the list's layers of that kind are not empty. */
  lemma HasKindIffSomeOfKind(layers: seq<LayerInstance>, k: LayerKind)
    ensures HasKind(layers, k) <==> |OfKind(layers, k)| > 0
  {
    if |OfKind(layers, k)| > 0 {
      assert OfKind(layers, k)[0] in OfKind(layers, k);
    }
  }

  /** A room loads exactly when its layers of each of the three kinds are not empty. */
  lemma BuildSucceedsIffEveryKindPresent(level: LevelData)
    ensures BuildRoomData(level).Success? <==>
      |OfKind(level.layerInstances, IntGridKind)| > 0 &&
      |OfKind(level.layerInstances, EntitiesKind)| > 0 &&
      |OfKind(level.layerInstances, AutoLayerKind)| > 0
  {
    HasKindIffSomeOfKind(level.layerInstances, IntGridKind);
    HasKindIffSomeOfKind(level.layerInstances, EntitiesKind);
    HasKindIffSomeOfKind(level.layerInstances, AutoLayerKind);
  }

  /** The collision grid is the first `IntGrid` layer's width, height and cells, copied unchanged. */
  lemma CollisionFromFirstIntGrid(level: LevelData, i: int)
    requires IsFirstOfKind(level.layerInstances, i, IntGridKind)
    requires BuildRoomData(level).Success?
    ensures var l := level.layerInstances[i];
      BuildRoomData(level).value.collisionTiles == CollisionGrid(l.cWid, l.cHei, l.intGridCsv)
  {
    FindMapAtFirstMatch(level.layerInstances, IntGridProjection, i);
  }

  /** The entity list is the first `Entities` layer's width, height and instances, copied unchanged. */
  lemma EntitiesFromFirstEntitiesLayer(level: LevelData, i: int)
    requires IsFirstOfKind(level.layerInstances, i, EntitiesKind)
    requires BuildRoomData(level).Success?
    ensures var l := level.layerInstances[i];
      BuildRoomData(level).value.roomEntities == RoomEntities(l.cWid, l.cHei, l.entityInstances)
  {
    FindMapAtFirstMatch(level.layerInstances, EntitiesProjection, i);
  }

  /** The decoration tiles are the first `AutoLayer` layer's width, height, tileset uid and tiles. */
  lemma SpriteTilesFromFirstAutoLayer(level: LevelData, i: int)
    requires IsFirstOfKind(level.layerInstances, i, AutoLayerKind)
    requires BuildRoomData(level).Success?
    ensures var l := level.layerInstances[i];
      BuildRoomData(level).value.spriteTiles ==
        AutoLayer.AutoLayer(l.cWid, l.cHei, l.tilesetDefUid, l.autoLayerTiles)
  {
    FindMapAtFirstMatch(level.layerInstances, AutoLayerProjection, i);
  }

  /** A projection's first match depends only on the layers of its own kind, in their order. */
  lemma SameLayersOfKindSameProjection<U>(s: seq<LayerInstance>, t: seq<LayerInstance>, f: LayerInstance -> Option<U>, k: LayerKind)
    requires forall l :: f(l).Some? <==> Kind(l) == k
    requires OfKind(s, k) == OfKind(t, k)
    ensures FindMap(s, f) == FindMap(t, f)
  {
    MatchesAreLayersOfKind(s, f, k);
    MatchesAreLayersOfKind(t, f, k);
    SameMatchesSameFindMap(s, t, f);
  }

  /** Each projection accepts exactly the layers of its own kind. */
  lemma ProjectionsMatchTheirKind()
    ensures forall l :: IntGridProjection(l).Some? <==> Kind(l) == IntGridKind
    ensures forall l :: EntitiesProjection(l).Some? <==> Kind(l) == EntitiesKind
    ensures forall l :: AutoLayerProjection(l).Some? <==> Kind(l) == AutoLayerKind
  {
  }

  /** A built room's projections are the three first-match searches over the layers. */
  lemma BuiltRoomIsFirstMatches(level: LevelData)
    requires BuildRoomData(level).Success?
    ensures Some(BuildRoomData(level).value.collisionTiles) == FindMap(level.layerInstances, IntGridProjection)
    ensures Some(BuildRoomData(level).value.roomEntities) == FindMap(level.layerInstances, EntitiesProjection)
    ensures Some(BuildRoomData(level).value.spriteTiles) == FindMap(level.layerInstances, AutoLayerProjection)
  {
  }

  /**
   * Each projection depends only on the layers of its own kind: two rooms whose layers of that
   * kind agree, in the same order, load the same projection of it whatever else they hold.
   */
  lemma ProjectionsDependOnlyOnOwnKind(a: LevelData, b: LevelData)
    requires BuildRoomData(a).Success? && BuildRoomData(b).Success?
    ensures OfKind(a.layerInstances, IntGridKind) == OfKind(b.layerInstances, IntGridKind) ==>
      BuildRoomData(a).value.collisionTiles == BuildRoomData(b).value.collisionTiles
    ensures OfKind(a.layerInstances, EntitiesKind) == OfKind(b.layerInstances, EntitiesKind) ==>
      BuildRoomData(a).value.roomEntities == BuildRoomData(b).value.roomEntities
    ensures OfKind(a.layerInstances, AutoLayerKind) == OfKind(b.layerInstances, AutoLayerKind) ==>
      BuildRoomData(a).value.spriteTiles == BuildRoomData(b).value.spriteTiles
  {
    var s, t := a.layerInstances, b.layerInstances;
    ProjectionsMatchTheirKind();
    BuiltRoomIsFirstMatches(a);
    BuiltRoomIsFirstMatches(b);
    if OfKind(s, IntGridKind) == OfKind(t, IntGridKind) {
      SameLayersOfKindSameProjection(s, t, IntGridProjection, IntGridKind);
    }
    if OfKind(s, EntitiesKind) == OfKind(t, EntitiesKind) {
      SameLayersOfKindSameProjection(s, t, EntitiesProjection, EntitiesKind);
    }
    if OfKind(s, AutoLayerKind) == OfKind(t, AutoLayerKind) {
      SameLayersOfKindSameProjection(s, t, AutoLayerProjection, AutoLayerKind);
    }
  }

  /**
   * Reordering, inserting or removing layers in a way that keeps the layers of every kind in
   * their relative order gives the same outcome, success or failure alike.
   */
  lemma SameLayersOfEachKindSameRoom(a: LevelData, b: LevelData)
    requires a.uid == b.uid && a.worldX == b.worldX && a.worldY == b.worldY
    requires OfKind(a.layerInstances, IntGridKind) == OfKind(b.layerInstances, IntGridKind)
    requires OfKind(a.layerInstances, EntitiesKind) == OfKind(b.layerInstances, EntitiesKind)
    requires OfKind(a.layerInstances, AutoLayerKind) == OfKind(b.layerInstances, AutoLayerKind)
    ensures BuildRoomData(a) == BuildRoomData(b)
  {
    var s, t := a.layerInstances, b.layerInstances;
    SameLayersOfKindSameProjection(s, t, IntGridProjection, IntGridKind);
    SameLayersOfKindSameProjection(s, t, EntitiesProjection, EntitiesKind);
    SameLayersOfKindSameProjection(s, t, AutoLayerProjection, AutoLayerKind);
  }

  /** Once a room loads, further layers appended to its file, duplicates included, change nothing. */
  lemma AppendedLayersIgnored(level: LevelData, extra: seq<LayerInstance>)
    requires BuildRoomData(level).Success?
    ensures BuildRoomData(level.(layerInstances := level.layerInstances + extra)) == BuildRoomData(level)
  {
    FindMapIgnoresAppended(level.layerInstances, extra, IntGridProjection);
    FindMapIgnoresAppended(level.layerInstances, extra, EntitiesProjection);
    FindMapIgnoresAppended(level.layerInstances, extra, AutoLayerProjection);
  }

  /** The room id can be read back from the path built from it. */
  lemma RoomFilePathRoundTrip(roomId: string)
    ensures RoomIdOfPath(RoomFilePath(roomId)) == Some(roomId)
  {
    var path := RoomFilePath(roomId);
    var n := |RoomDirectory|;
    assert path[|path| - |RoomFileExtension|..] == RoomFileExtension;
    assert path[n..|path| - |RoomFileExtension|] == roomId;
  }

  /** Every path that reads back as a room id is the path of that id. */
  lemma RoomIdOfPathInverse(path: string)
    requires RoomIdOfPath(path).Some?
    ensures RoomFilePath(RoomIdOfPath(path).value) == path
  {
    var n, m := |RoomDirectory|, |RoomFileExtension|;
    var roomId := RoomIdOfPath(path).value;
    assert path == path[..n] + path[n..|path| - m] + path[|path| - m..];
  }

  /** Different room ids name different files. */
  lemma RoomFilePathInjective(a: string, b: string)
    requires RoomFilePath(a) == RoomFilePath(b)
    ensures a == b
  {
    RoomFilePathRoundTrip(a);
    RoomFilePathRoundTrip(b);
  }

  /** The default room is "level_0", read from "./assets/level-data/tiraic/level_0.ldtkl". */
  lemma DefaultRoomFile()
    ensures DefaultCurrentRoom().id == "level_0"
    ensures RoomFilePath(DefaultCurrentRoom().id) == "./assets/level-data/tiraic/level_0.ldtkl"
  {
  }

  /** A load reads only its own room's file: the rest of the file system does not matter. */
  lemma LoadRoomReadsOnlyItsFile(roomId: string, files1: map<string, string>, files2: map<string, string>, parse: string -> Option<LevelData>)
    requires RoomFilePath(roomId) in files1 <==> RoomFilePath(roomId) in files2
    requires RoomFilePath(roomId) in files1 ==> files1[RoomFilePath(roomId)] == files2[RoomFilePath(roomId)]
    ensures LoadRoom(roomId, files1, parse) == LoadRoom(roomId, files2, parse)
  {
  }

  /** A loaded room carries the parsed file's uid and world position, and its layers' first matches. */
  lemma LoadedRoomMirrorsFile(roomId: string, files: map<string, string>, parse: string -> Option<LevelData>)
    requires LoadRoom(roomId, files, parse).Success?
    ensures RoomFilePath(roomId) in files && parse(files[RoomFilePath(roomId)]).Some?
    ensures var level := parse(files[RoomFilePath(roomId)]).value;
      var room := LoadRoom(roomId, files, parse).value;
      room.uid == level.uid && room.worldX == level.worldX && room.worldY == level.worldY &&
      Some(room.collisionTiles) == FindMap(level.layerInstances, IntGridProjection) &&
      Some(room.roomEntities) == FindMap(level.layerInstances, EntitiesProjection) &&
      Some(room.spriteTiles) == FindMap(level.layerInstances, AutoLayerProjection)
  {
  }
}
