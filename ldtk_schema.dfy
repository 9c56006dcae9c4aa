/**
 * The parsed shapes of one LDtk room file (`.ldtkl`) as the level loader reads them:
 * tile and entity instances, the tagged union of layer instances, and the room itself.
 * Rust's fixed-width integers are kept as bounded subset types of `int`.
 */
module Ldtk {
  import opened Wrappers

  type U8 = x: int | 0 <= x < 0x100
  type U64 = x: int | 0 <= x < 0x1_0000_0000_0000_0000
  type I64 = x: int | -0x8000_0000_0000_0000 <= x < 0x8000_0000_0000_0000

  /** One auto-layer tile: its pixel position in the tileset image and in the room. */
  datatype TileInstance = TileInstance(src: (I64, I64), px: (I64, I64), id: Option<U64>)

  /** One entity placed in the room. */
  datatype EntityInstance = EntityInstance(
    grid: (I64, I64),
    identifier: string,
    tags: seq<string>,
    worldX: I64,
    worldY: I64,
    width: Option<U64>,
    height: Option<U64>)

  /** A layer of a room, discriminated by the file's `__type` tag; exactly these three tags parse. */
  datatype LayerInstance =
    | IntGrid(cWid: U64, cHei: U64, intGridCsv: seq<U8>)
    | AutoLayer(cWid: U64, cHei: U64, tilesetDefUid: U64, autoLayerTiles: seq<TileInstance>)
    | Entities(cWid: U64, cHei: U64, entityInstances: seq<EntityInstance>)

  /** The discriminant of a layer, without its payload. */
  datatype LayerKind = IntGridKind | AutoLayerKind | EntitiesKind

  function Kind(layer: LayerInstance): LayerKind {
    match layer
    case IntGrid(_, _, _) => IntGridKind
    case AutoLayer(_, _, _, _) => AutoLayerKind
    case Entities(_, _, _) => EntitiesKind
  }

  /** A parsed room file: its identity, its world offset and its layers in file order. */
  datatype LevelData = LevelData(uid: U64, worldX: I64, worldY: I64, layerInstances: seq<LayerInstance>)

  /** Some layer of kind `k` occurs in `layers`. */
  predicate HasKind(layers: seq<LayerInstance>, k: LayerKind) {
    exists i :: 0 <= i < |layers| && Kind(layers[i]) == k
  }

  /** `i` is the position of the first layer of kind `k`. */
  predicate IsFirstOfKind(layers: seq<LayerInstance>, i: int, k: LayerKind) {
    0 <= i < |layers| && Kind(layers[i]) == k &&
    forall j :: 0 <= j < i ==> Kind(layers[j]) != k
  }

  /** The layers of kind `k`, in file order. */
  function OfKind(layers: seq<LayerInstance>, k: LayerKind): (r: seq<LayerInstance>)
    ensures forall l :: l in r ==> l in layers && Kind(l) == k
    ensures forall i :: 0 <= i < |layers| && Kind(layers[i]) == k ==> layers[i] in r
  {
    if |layers| == 0 then []
    else if Kind(layers[0]) == k then [layers[0]] + OfKind(layers[1..], k)
    else OfKind(layers[1..], k)
  }
}
