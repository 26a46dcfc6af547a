/**
 * The static game configuration: board and path, starting resources, the
 * tower types and the sound mappings. Only the entries the game rules read
 * are kept (colours, descriptions and file names are presentation data).
 */
module Config {

  /** The per-type tower data that the game rules read. */
  datatype TowerProps = TowerProps(range: int, damage: int, fireRate: real, cost: int, sound: string)

  const TILE_SIZE: int := 40
  const GRID_WIDTH: int := 20
  const GRID_HEIGHT: int := 15

  const STARTING_MONEY: int := 999999
  const STARTING_LIVES: int := 10

  /** The grid cells the enemies walk along; the last cell is the base. */
  const PATH: seq<(int, int)> := [
    (0, 7), (1, 7), (2, 7), (3, 7), (4, 7), (5, 7), (6, 7),
    (6, 6), (6, 5), (6, 4), (6, 3),
    (7, 3), (8, 3), (9, 3), (10, 3), (11, 3),
    (11, 4), (11, 5), (11, 6), (11, 7), (11, 8), (11, 9),
    (12, 9), (13, 9), (14, 9), (15, 9), (16, 9), (17, 9), (18, 9), (19, 9)
  ]

  const TOWER_TYPES: map<string, TowerProps> := map[
    "drums"         := TowerProps(2, 10, 1.0, 100, "drums"),
    "bass"          := TowerProps(3, 15, 0.5, 150, "bass"),
    "heavy_guitar"  := TowerProps(4, 10, 1.5, 200, "heavy_guitar"),
    "wiggly_guitar" := TowerProps(5, 25, 0.5, 250, "wiggly_guitar"),
    "synth1"        := TowerProps(4, 30, 0.4, 300, "synth1"),
    "synth2"        := TowerProps(3, 18, 0.6, 225, "synth2"),
    "synth_stabs"   := TowerProps(6, 15, 0.3, 275, "synth_stabs")
  ]

  /** The sound keys in declaration order, each with whether its type is 'music'. */
  const SOUND_MAPPINGS: seq<(string, bool)> := [
    ("drums", true), ("bass", true), ("heavy_guitar", true), ("wiggly_guitar", true),
    ("synth1", true), ("synth2", true), ("synth_stabs", true)
  ]

  /** The cell (x, y) is one of the path cells. */
  predicate OnPath(x: int, y: int) {
    exists i :: 0 <= i < |PATH| && PATH[i] == (x, y)
  }

  /** The cell (x, y) lies on the board. */
  predicate InBounds(x: int, y: int) {
    0 <= x < GRID_WIDTH && 0 <= y < GRID_HEIGHT
  }

}
