# Room ingestion of the bevy-platformer level loader

This project models the room-ingestion step of the platformer's level loader
(`src/level_loader.rs`). The loader reads one LDtk room file (`.ldtkl`) and parses its JSON
into a `LdtkLevelData`. That value holds the room's `uid`, its world position and an ordered
list of tagged layer instances. The loader then splits the list into three typed projections:

- the collision grid, taken from the first `IntGrid` layer;
- the decoration tile layer, taken from the first `AutoLayer` layer;
- the entity list, taken from the first `Entities` layer.

Each projection is a first-match `find_map` followed by `unwrap`, so a missing kind aborts the
load. The model also covers the room file path built from a room id, the `CurrentRoom`
default of `"level_0"` and the startup system's load of that room.

Files:

- `wrappers.dfy`: `Option` and `Result`.
- `seq_find.dfy` (module `SeqFind`): `FindMap`, the generic first-match search of Rust's
  `find_map`, with the lemmas that characterise it.
- `ldtk_schema.dfy` (module `Ldtk`): the parsed shapes. These are tiles, entities, the
  three-way tagged `LayerInstance` union and `LevelData`. Rust's `u8`, `u64` and `i64` become
  bounded subset types of `int`.
- `level_loader.dfy` (module `LevelLoader`): the projection records, `RoomData`,
  `CurrentRoom`, the path, the demultiplexing (`BuildRoomData`) and the whole load (`LoadRoom`).
- `level_loader_properties.dfy` (module `LevelLoaderProperties`): lemmas about the loader.
- `room_scenarios.dfy` (module `RoomScenarios`): concrete rooms and what they load to.

The file system and the JSON parser are parameters of `LoadRoom`. The file system is a map
from path to contents. The parser is a function from contents to an optional `LevelData`.
Each `unwrap` that panics in the program becomes a `Failure` here. `RoomFileUnreadable` stands
for the read at line 162, `RoomFileMalformed` for the parse at line 164, and
`MissingLayer(kind)` for the three layer `unwrap`s. Rust evaluates the `RoomData` fields in
the order they are written: collision grid, then entities, then decoration tiles. So when
several kinds are absent, the model reports the first one missing in that order.

Two behaviours of the code are worth stating plainly:

- The cells of a collision layer are not checked against its size. The code copies them as
  they are, whatever their count relative to `c_wid * c_hei`. `CellCountNotChecked` shows a
  2x2 grid with one cell loading successfully.
- Every failure is a panic: a failed read, a failed parse or a missing layer kind. When a kind
  occurs more than once, the first layer of that kind is used and the others are ignored.

## Model

| member | source | states |
|---|---|---|
| `SeqFind.FindMap` | src/level_loader.rs:169-184 | `find_map` gives `None` exactly when no element matches. Otherwise it gives the projection of some matching element with no match before it. |
| `SeqFind.FindMapAtFirstMatch` | src/level_loader.rs:169-184 | If element `i` is the first match, the search result is that element's projection, whatever comes after it. |
| `SeqFind.FindMapIsFirstOfMatches` | src/level_loader.rs:169-218 | The search result is the projection of the head of the matching elements, or `None` when there are none. |
| `SeqFind.SameMatchesSameFindMap` | src/level_loader.rs:169-218 | Two sequences with the same matching elements in the same order give the same search result. |
| `LevelLoader.RoomFilePath` | src/level_loader.rs:162 | The path is `./assets/level-data/tiraic/`, then the room id verbatim, then `.ldtkl`. |
| `LevelLoader.BuildRoomData` | src/level_loader.rs:165-219 | The build succeeds exactly when the layers include an `IntGrid`, an `Entities` and an `AutoLayer` layer. On failure it reports the first missing kind in field order (collision, entities, decoration). On success `uid`, `world_x` and `world_y` are copied unchanged. |
| `LevelLoader.LoadRoom` | src/level_loader.rs:160-219 | An unreadable room file and an unparsable one each fail with their own error and path. A file that reads and parses gives exactly `BuildRoomData` of the parsed room, so a missing layer kind fails with that kind. The load succeeds exactly when the file exists, parses and has all three layer kinds. |
| `LevelLoader.DefaultCurrentRoom` | src/level_loader.rs:149-153 | The default current room is `"level_0"`, whose file is `./assets/level-data/tiraic/level_0.ldtkl`. |
| `LevelLoader.IntGridProjection` | src/level_loader.rs:172-183 | The closure yields a value exactly for an `IntGrid` layer, carrying its `c_wid`, `c_hei` and `int_grid_csv`. |
| `LevelLoader.EntitiesProjection` | src/level_loader.rs:188-199 | The closure yields a value exactly for an `Entities` layer, carrying its `c_wid`, `c_hei` and entity instances. |
| `LevelLoader.AutoLayerProjection` | src/level_loader.rs:204-217 | The closure yields a value exactly for an `AutoLayer` layer, carrying its `c_wid`, `c_hei`, `tileset_def_uid` and tiles. |
| `LevelLoader.StartupRoomLoad` | src/level_loader.rs:224-228 | The startup load names `"level_0"` directly. It is the same as loading the default current room. |
| `LevelLoaderProperties.FindMapIgnoresAppended` | src/level_loader.rs:169-218 | A search that finds a value finds the same value with any elements appended. |
| `LevelLoaderProperties.MatchesAreLayersOfKind` | src/level_loader.rs:172-183 | A projection that accepts exactly the layers of kind `k` matches exactly the layers of kind `k`, in file order. |
| `LevelLoaderProperties.LayersOfOtherKindsIgnored` | src/level_loader.rs:169-218 | Inserting or removing a layer of another kind leaves the layers of kind `k`, and their order, unchanged. |
| `LevelLoaderProperties.HasKindIffSomeOfKind` | src/level_loader.rs:169-218 | A layer kind occurs exactly when the list of that kind's layers is not empty. |
| `LevelLoaderProperties.BuildSucceedsIffEveryKindPresent` | src/level_loader.rs:165-219 | A room loads exactly when its layers of each of the three kinds are not empty. |
| `LevelLoaderProperties.BuiltRoomIsFirstMatches` | src/level_loader.rs:169-218 | A built room's three projections are the three first-match searches over its layers. |
| `LevelLoaderProperties.CollisionFromFirstIntGrid` | src/level_loader.rs:169-184 | The collision grid equals the first `IntGrid` layer's `c_wid`, `c_hei` and `int_grid_csv`. The cells keep their length, order and contents, and later `IntGrid` layers are ignored. |
| `LevelLoaderProperties.EntitiesFromFirstEntitiesLayer` | src/level_loader.rs:185-200 | The entity list equals the first `Entities` layer's `c_wid`, `c_hei` and entity instances, element for element. |
| `LevelLoaderProperties.SpriteTilesFromFirstAutoLayer` | src/level_loader.rs:201-218 | The decoration layer equals the first `AutoLayer` layer's `c_wid`, `c_hei`, `tileset_def_uid` and tiles, unchanged. |
| `LevelLoaderProperties.SameLayersOfKindSameProjection` | src/level_loader.rs:169-218 | A projection's search depends only on the layers of its own kind, in their order. |
| `LevelLoaderProperties.ProjectionsMatchTheirKind` | src/level_loader.rs:172-217 | Each of the three `find_map` closures yields a value exactly for layers of its own tag. |
| `LevelLoaderProperties.ProjectionsDependOnlyOnOwnKind` | src/level_loader.rs:169-218 | Two loaded rooms whose layers of one kind agree have the same projection for that kind, whatever their other layers are. |
| `LevelLoaderProperties.SameLayersOfEachKindSameRoom` | src/level_loader.rs:165-219 | Reordering, inserting or removing layers gives the same outcome, success or failure, as long as each kind's layers keep their relative order. |
| `LevelLoaderProperties.AppendedLayersIgnored` | src/level_loader.rs:169-218 | Once a room loads, appending more layers, duplicates included, does not change the result. |
| `LevelLoaderProperties.RoomFilePathRoundTrip` | src/level_loader.rs:162 | The room id can be read back from its file path. |
| `LevelLoaderProperties.RoomIdOfPathInverse` | src/level_loader.rs:162 | Any path that reads back as a room id is exactly the path built from that id. |
| `LevelLoaderProperties.RoomFilePathInjective` | src/level_loader.rs:162 | Different room ids give different file paths. |
| `LevelLoaderProperties.DefaultRoomFile` | src/level_loader.rs:149-153 | The default current room is `"level_0"`, read from `./assets/level-data/tiraic/level_0.ldtkl`. |
| `LevelLoaderProperties.LoadRoomReadsOnlyItsFile` | src/level_loader.rs:160-164 | The load depends only on the file at its own room's path. |
| `LevelLoaderProperties.LoadedRoomMirrorsFile` | src/level_loader.rs:160-219 | A successful load comes from an existing, parsable file. The loaded room has that file's uid and world position and each kind's first-match projection. |
| `RoomScenarios.SmallRoomLoads` | src/level_loader.rs:165-219 | A 2x2 room with cells `[0,1,1,0]`, one tile and one `torch` entity loads into exactly those contents. |
| `RoomScenarios.LayerOrderDoesNotMatter` | src/level_loader.rs:165-219 | The same three layers in another order load the same room. |
| `RoomScenarios.MissingEntitiesLayerFails` | src/level_loader.rs:185-200 | A room with only an `IntGrid` and an `AutoLayer` layer fails with the `Entities` kind missing. |
| `RoomScenarios.CollisionGridReportedFirst` | src/level_loader.rs:169-200 | With both the collision grid and the entities missing, the collision grid is reported, because its `unwrap` runs first. |
| `RoomScenarios.SecondIntGridIgnored` | src/level_loader.rs:169-184 | A second `IntGrid` layer does not replace the first. |
| `RoomScenarios.CellCountNotChecked` | src/level_loader.rs:173-181 | A 2x2 grid with a single cell loads, and its cell list is kept as given. |

## Left out

- JSON deserialisation (`serde_json::from_str` and the serde rename and tag attributes) is a
  foreign library. `LoadRoom` takes the parser as a parameter, and `None` stands for any
  parse error, including an unknown `__type` tag.
- The file read and the `print!` of the file's text are I/O. The file system is a map
  parameter, and the printed output is not modelled.
- A panic aborts the process in the program. Here it is a `Failure` value that names the
  failing step.
- `get_world_data`, `WorldRoot`, `TldkLevelDefinition` and the empty `TldkDefinitions`
  sub-structs are not part of this model. The world manifest is embedded as text at build time
  (`include_str!`). `get_world_data` would parse it at run time and panic on failure, but
  nothing calls it, and the room load never consults it.
- The Bevy glue is engine plumbing with no behaviour: `init_resource`, the plugin
  registration, the empty `generate_entities_for_room`, the empty per-tile loop and the
  `TileWithCollisionBundle`. `StartupRoomLoad` keeps only the room load that startup performs.
- Changing the current room is not modelled, because the program never does it.
- `src/main.rs` is not part of this model. It holds the floating-point physics, the camera
  follow, spawning and the app setup.
