/**
 * Room ingestion: the typed projections of a parsed room, their selection from the room's
 * layer list, the room file path, the current-room default and the startup load.
 *
 * Reading the file and parsing its JSON are not modelled: the file system is a map from
 * path to file contents, and the JSON parser a function from contents to an optional
 * `LevelData` (`None` where parsing fails). Each `unwrap` that would panic in the program
 * yields a `Failure` naming what was missing.
 */
module LevelLoader {
  import opened Wrappers
  import opened SeqFind
  import opened Ldtk

  /** The room's collision cells, one collision-class byte per grid cell. */
  datatype CollisionGrid = CollisionGrid(gridWidth: U64, gridHeight: U64, colliderGrid: seq<U8>)

  /** The room's decoration tiles and the tileset they are cut from. */
  datatype AutoLayer = AutoLayer(gridWidth: U64, gridHeight: U64, tilesetDefinionId: U64, tiles: seq<TileInstance>)

  /** The room's entity placements. */
  datatype RoomEntities = RoomEntities(gridWidth: U64, gridHeight: U64, entities: seq<EntityInstance>)

  /** A loaded room, with the tag discriminants of its layers dropped. */
  datatype RoomData = RoomData(
    uid: U64,
    worldX: I64,
    worldY: I64,
    collisionTiles: CollisionGrid,
    spriteTiles: AutoLayer,
    roomEntities: RoomEntities)

  /** Why loading a room stops: the file read fails, the JSON does not parse, or a layer kind is absent. */
  datatype LoadError =
    | RoomFileUnreadable(path: string)
    | RoomFileMalformed(path: string)
    | MissingLayer(kind: LayerKind)

  /** Which room is active; the program keeps it as an engine resource. */
  datatype CurrentRoom = CurrentRoomId(id: string)

  /** The active room when nothing has set one. */
  function DefaultCurrentRoom(): (c: CurrentRoom)
    ensures c.id == "level_0"
    ensures RoomFilePath(c.id) == "./assets/level-data/tiraic/level_0.ldtkl"
  {
    CurrentRoomId("level_0")
  }

  const RoomDirectory: string := "./assets/level-data/tiraic/"
  const RoomFileExtension: string := ".ldtkl"

  /** The path of the file holding room `roomId`; the id is spliced in verbatim. */
  function RoomFilePath(roomId: string): (path: string)
    ensures |path| == |RoomDirectory| + |roomId| + |RoomFileExtension|
    ensures path[..|RoomDirectory|] == RoomDirectory
    ensures path[|RoomDirectory|..|RoomDirectory| + |roomId|] == roomId
    ensures path[|RoomDirectory| + |roomId|..] == RoomFileExtension
  {
    RoomDirectory + roomId + RoomFileExtension
  }

  /** The room id a room file path was built from, if it has the shape of one. */
  function RoomIdOfPath(path: string): (roomId: Option<string>)
    ensures roomId.Some? ==> |path| == |RoomDirectory| + |roomId.value| + |RoomFileExtension|
  {
    var n, m := |RoomDirectory|, |RoomFileExtension|;
    if |path| >= n + m && path[..n] == RoomDirectory && path[|path| - m..] == RoomFileExtension
    then Some(path[n..|path| - m])
    else None
  }

  /** The collision-grid projection of one layer: a value for an `IntGrid` layer only. */
  function IntGridProjection(layer: LayerInstance): (r: Option<CollisionGrid>)
    ensures r.Some? <==> Kind(layer) == IntGridKind
    ensures r.Some? ==>
      r.value.gridWidth == layer.cWid && r.value.gridHeight == layer.cHei &&
      r.value.colliderGrid == layer.intGridCsv
  {
    match layer
    case IntGrid(cWid, cHei, csv) => Some(CollisionGrid(cWid, cHei, csv))
    case _ => None
  }

  /** The entity projection of one layer: a value for an `Entities` layer only. */
  function EntitiesProjection(layer: LayerInstance): (r: Option<RoomEntities>)
    ensures r.Some? <==> Kind(layer) == EntitiesKind
    ensures r.Some? ==>
      r.value.gridWidth == layer.cWid && r.value.gridHeight == layer.cHei &&
      r.value.entities == layer.entityInstances
  {
    match layer
    case Entities(cWid, cHei, instances) => Some(RoomEntities(cWid, cHei, instances))
    case _ => None
  }

  /** The decoration projection of one layer: a value for an `AutoLayer` layer only. */
  function AutoLayerProjection(layer: LayerInstance): (r: Option<AutoLayer>)
    ensures r.Some? <==> Kind(layer) == AutoLayerKind
    ensures r.Some? ==>
      r.value.gridWidth == layer.cWid && r.value.gridHeight == layer.cHei &&
      r.value.tilesetDefinionId == layer.tilesetDefUid && r.value.tiles == layer.autoLayerTiles
  {
    match layer
    case AutoLayer(cWid, cHei, tilesetUid, tiles) => Some(AutoLayer.AutoLayer(cWid, cHei, tilesetUid, tiles))
    case _ => None
  }

  /**
   * The demultiplexing of a parsed room: one first-match scan per layer kind. The record's
   * fields are built in the order collision grid, entities, decoration tiles, so the first
   * absent kind in that order is the one reported.
   */
  function BuildRoomData(level: LevelData): (r: Result<RoomData, LoadError>)
    ensures r.Success? <==>
      HasKind(level.layerInstances, IntGridKind) &&
      HasKind(level.layerInstances, EntitiesKind) &&
      HasKind(level.layerInstances, AutoLayerKind)
    ensures r.Failure? ==> r.error == MissingLayer(
      if !HasKind(level.layerInstances, IntGridKind) then IntGridKind
      else if !HasKind(level.layerInstances, EntitiesKind) then EntitiesKind
      else AutoLayerKind)
    ensures r.Success? ==>
      r.value.uid == level.uid && r.value.worldX == level.worldX && r.value.worldY == level.worldY
  {
    var collision := FindMap(level.layerInstances, IntGridProjection);
    var entities := FindMap(level.layerInstances, EntitiesProjection);
    var sprites := FindMap(level.layerInstances, AutoLayerProjection);
    if collision.None? then Failure(MissingLayer(IntGridKind))
    else if entities.None? then Failure(MissingLayer(EntitiesKind))
    else if sprites.None? then Failure(MissingLayer(AutoLayerKind))
    else Success(RoomData(
      level.uid, level.worldX, level.worldY, collision.value, sprites.value, entities.value))
  }

  /**
   * `load_and_deserialize_room_data`: read the room's file, parse it, and demultiplex its layers.
   * `files` stands for the file system and `parse` for the JSON parser.
   */
  function LoadRoom(roomId: string, files: map<string, string>, parse: string -> Option<LevelData>)
    : (r: Result<RoomData, LoadError>)
    ensures RoomFilePath(roomId) !in files ==> r == Failure(RoomFileUnreadable(RoomFilePath(roomId)))
    ensures RoomFilePath(roomId) in files && parse(files[RoomFilePath(roomId)]).None? ==>
      r == Failure(RoomFileMalformed(RoomFilePath(roomId)))
    ensures r.Success? <==>
      RoomFilePath(roomId) in files && parse(files[RoomFilePath(roomId)]).Some? &&
      BuildRoomData(parse(files[RoomFilePath(roomId)]).value).Success?
    ensures RoomFilePath(roomId) in files && parse(files[RoomFilePath(roomId)]).Some? ==>
      r == BuildRoomData(parse(files[RoomFilePath(roomId)]).value)
  {
    var path := RoomFilePath(roomId);
    if path !in files then Failure(RoomFileUnreadable(path))
    else match parse(files[path])
      case None => Failure(RoomFileMalformed(path))
      case Some(level) => BuildRoomData(level)
  }

  /** The startup system's load: it names room "level_0" directly instead of reading the current room. */
  function StartupRoomLoad(files: map<string, string>, parse: string -> Option<LevelData>)
    : (r: Result<RoomData, LoadError>)
    ensures r == LoadRoom(DefaultCurrentRoom().id, files, parse)
  {
    LoadRoom("level_0", files, parse)
  }
}
