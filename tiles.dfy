/**
 * Tile flags of the dungeon grid. The numeric values live in the shared
 * helpers module, which is not part of this model; the model fixes one
 * distinct bit per flag, which is all the grid code relies on.
 */
module Tiles {
  type Tile = bv16

  const EMPTY: Tile := 1
  const FLOOR: Tile := 2
  const WALL: Tile := 4
  const NORTH: Tile := 8
  const SOUTH: Tile := 16
  const EAST: Tile := 32
  const WEST: Tile := 64
  const CORNER: Tile := 128

  /** `tile & flag` is truthy. */
  predicate Has(tile: Tile, flag: Tile)
  {
    tile & flag != 0
  }

}
