/** Concrete rooms: a small well-formed room, and rooms the loader treats as edge cases. */
module RoomScenarios {
  import opened Wrappers
  import opened Ldtk
  import opened LevelLoader
  import opened LevelLoaderProperties

  const Torch: EntityInstance := EntityInstance((1, 1), "torch", ["light"], 16, 16, None, None)
  const Tile: TileInstance := TileInstance((0, 0), (16, 16), None)
  const Collision: LayerInstance := IntGrid(2, 2, [0, 1, 1, 0])
  const Decoration: LayerInstance := LayerInstance.AutoLayer(2, 2, 7, [Tile])
  const Placements: LayerInstance := Entities(2, 2, [Torch])

  /** The room loaded from the three layers above, in any order. */
  const SmallRoom: RoomData := RoomData(5, -256, 0,
    CollisionGrid(2, 2, [0, 1, 1, 0]),
    AutoLayer.AutoLayer(2, 2, 7, [Tile]),
    RoomEntities(2, 2, [Torch]))

  /** A 2x2 room with one layer of each kind loads into exactly those layers' contents. */
  lemma SmallRoomLoads()
    ensures BuildRoomData(LevelData(5, -256, 0, [Collision, Decoration, Placements])) == Success(SmallRoom)
  {
    var level := LevelData(5, -256, 0, [Collision, Decoration, Placements]);
    assert Kind(level.layerInstances[0]) == IntGridKind;
    assert Kind(level.layerInstances[1]) == AutoLayerKind;
    assert Kind(level.layerInstances[2]) == EntitiesKind;
    CollisionFromFirstIntGrid(level, 0);
    SpriteTilesFromFirstAutoLayer(level, 1);
    EntitiesFromFirstEntitiesLayer(level, 2);
  }

  /** The same layers in another order load the same room. */
  lemma LayerOrderDoesNotMatter()
    ensures BuildRoomData(LevelData(5, -256, 0, [Placements, Collision, Decoration])) == Success(SmallRoom)
  {
    var level := LevelData(5, -256, 0, [Placements, Collision, Decoration]);
    assert Kind(level.layerInstances[0]) == EntitiesKind;
    assert Kind(level.layerInstances[1]) == IntGridKind;
    assert Kind(level.layerInstances[2]) == AutoLayerKind;
    CollisionFromFirstIntGrid(level, 1);
    SpriteTilesFromFirstAutoLayer(level, 2);
    EntitiesFromFirstEntitiesLayer(level, 0);
  }

  /** A room without an `Entities` layer fails on that kind. */
  lemma MissingEntitiesLayerFails()
    ensures BuildRoomData(LevelData(5, 0, 0, [Collision, Decoration])) == Failure(MissingLayer(EntitiesKind))
  {
    var layers := [Collision, Decoration];
    assert Kind(layers[0]) == IntGridKind;
    assert !HasKind(layers, EntitiesKind);
  }

  /** With no collision grid and no entities, the collision grid is the one reported missing. */
  lemma CollisionGridReportedFirst()
    ensures BuildRoomData(LevelData(5, 0, 0, [Decoration])) == Failure(MissingLayer(IntGridKind))
  {
    assert !HasKind([Decoration], IntGridKind);
  }

  /** A second `IntGrid` layer is ignored in favour of the first. */
  lemma SecondIntGridIgnored()
    ensures var r := BuildRoomData(LevelData(5, 0, 0, [Collision, Decoration, IntGrid(1, 1, [3]), Placements]));
      r.Success? && r.value.collisionTiles == CollisionGrid(2, 2, [0, 1, 1, 0])
  {
    var level := LevelData(5, 0, 0, [Collision, Decoration, IntGrid(1, 1, [3]), Placements]);
    assert Kind(level.layerInstances[0]) == IntGridKind;
    assert Kind(level.layerInstances[1]) == AutoLayerKind;
    assert Kind(level.layerInstances[3]) == EntitiesKind;
    CollisionFromFirstIntGrid(level, 0);
  }

  /** The cell list is not checked against the grid size: a 2x2 grid with one cell still loads. */
  lemma CellCountNotChecked()
    ensures var r := BuildRoomData(LevelData(5, 0, 0, [IntGrid(2, 2, [1]), Decoration, Placements]));
      r.Success? && r.value.collisionTiles == CollisionGrid(2, 2, [1])
  {
    var level := LevelData(5, 0, 0, [IntGrid(2, 2, [1]), Decoration, Placements]);
    assert Kind(level.layerInstances[0]) == IntGridKind;
    assert Kind(level.layerInstances[1]) == AutoLayerKind;
    assert Kind(level.layerInstances[2]) == EntitiesKind;
    CollisionFromFirstIntGrid(level, 0);
  }
}
