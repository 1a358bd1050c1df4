# Isometric terrain game: verified model of its core

This project models, in Dafny, the logic of a small Tkinter/PIL isometric
game:

- **Terrain classification** (`terrain.dfy`, module `Terrain`). The map
  generator turns an elevation into one of five labels: water, plains, hills,
  mountains or high_peaks. It uses an ordered, lower-inclusive if/elif chain
  with thresholds 0.2, 0.4, 0.6 and 0.8.
- **Map layout and sprite-sheet slicing** (`map_generation.dfy`, module
  `MapGeneration`). `generate_isometric_map` walks a `size`×`size` elevation
  grid in row-major order. For each cell it appends the label text and a tile
  record: the image stored under that label, at screen position
  `((x - y) * (tile_width // 2), (x + y) * (tile_height // 2))`.
  `slice_spritesheet` cuts a sheet into square crop boxes keyed by
  (row, column).
- **Character and enemy movement** (`agent.dfy`, `character.dfy`,
  `enemy.dfy`). Each agent is a class whose position, facing, animation frame
  and running flag change in place. A move commits a one-cell step only when
  the edge guard holds and the target cell is walkable. Walkable means on the
  map and with an elevation inside the agent's band: [-0.06, 0.4) for the
  character, [0.2, 0.8) for the enemy. The guarded step and the eight-frame
  counter are shared in module `Agent`. Each class supplies its own band.
- **Inventory** (`inventory.dfy`, module `Inventories`). A table from item
  name to count. Adding increments an entry or inserts it. Removing
  decrements an entry and deletes it once the count is no longer positive.

Each file keeps its thresholds exactly as written; they are not reconciled.
The character's band [-0.06, 0.4) covers water and plains on the map's
scale. `Characters.WalksOnWater` shows that the character can stand on a cell
that the map draws as water. The enemy's band is exactly the plains, hills
and mountains bands (`Enemies.WalkBandLabels`).

The model follows the code as written, including behaviour a reader might
not expect:
- a move that is rejected still starts the animation (character.py:115);
- starting the animation advances the frame by one from its current value; it
  does not reset the frame to 0 (character.py:73-75);
- an unknown direction token is silently ignored rather than being an error
  (character.py:102-113);
- the three threshold pairs are kept as three pairs;
- the enemy's `start_animation` names `self.animate_enemy` without calling it
  (enemy.py:75), so starting never advances its frame (`Enemies.Enemy.StartAnimation`).

Elevations are `real`. The code only compares them against constants, and
Python's floor division `//` is written out as `MapGeneration.FloorDiv`.
The canvas height and width used by the down and right guards of a move are
plain integer parameters. The elevation grid is indexed `terrain[y][x]`
(row = y).

## Model

| member | source | states |
|---|---|---|
| `Terrain.Classify` | map_generation.py:54-68 | Total: the label's rank is the number of thresholds 0.2, 0.4, 0.6, 0.8 the elevation has reached, so each boundary is lower-inclusive |
| `Terrain.ClassifyMonotone` | map_generation.py:54-68 | A higher elevation never yields an earlier label in the order water < plains < hills < mountains < high_peaks |
| `Terrain.ClassifyBand` | map_generation.py:54-68 | A label is produced exactly for elevations in its half-open band [own threshold, next threshold); water has no lower bound, high_peaks no upper bound |
| `Terrain.BoundariesLowerInclusive` | map_generation.py:54-66 | 0.2 → plains, 0.4 → hills, 0.6 → mountains, 0.8 → high_peaks, and everything below 0.2 → water |
| `MapGeneration.FloorDiv` | map_generation.py:114-115 | The result is the floor of a / b for either sign of b, as Python's `//` computes it |
| `MapGeneration.GenerateIsometricMap` | map_generation.py:46-81 | Both outputs have size*size entries; entry y*size+x holds cell (x, y)'s label text and a tile with the image stored under that text at the cell's isometric position; every tile's image is the image of its label text |
| `MapGeneration.IsoPositionInjective` | map_generation.py:71-72 | With tiles at least 2 pixels wide and high, distinct cells get distinct screen positions |
| `MapGeneration.IsoDiagonal` | map_generation.py:71 | A cell on the diagonal x = y always gets screen x 0; with tiles at least 2 pixels wide, screen x is 0 only on the diagonal |
| `MapGeneration.SliceSpritesheet` | map_generation.py:114-132 | A zero tile size is the division error; otherwise the keys are exactly (i, j) with i < height // ts and j < width // ts, each mapped to box (j*ts, i*ts, (j+1)*ts, (i+1)*ts); a negative tile size gives an empty table |
| `MapGeneration.CropBoxInsideSheet` | map_generation.py:114-129 | For a positive tile size every box is a full ts×ts tile inside [0, width] × [0, height] |
| `MapGeneration.CropBoxesDisjoint` | map_generation.py:121-132 | Boxes under different keys do not overlap |
| `Agent.Step` | character.py:102-113 | Moves up (y-1) exactly when the token is 'up', y > 0 and the target is walkable, and the same for down (y < canvas height - 1), left (x > 0) and right (x < canvas width - 1); a step changes one coordinate by 1 onto the neighbour in the named direction and sets the facing to the token; an accepted target is on the map and walkable; if the position does not change, nothing changes |
| `Agent.UnknownTokenIgnored` | character.py:102-113 | A token other than up/down/left/right leaves position and facing unchanged |
| `Agent.NextFrame` | character.py:63 | The frame step stays in [0, 8), counts up by one and wraps from 7 to 0 |
| `Agent.AdvanceIsModular` | character.py:63 | n frame steps from a valid frame f give (f + n) mod 8 |
| `Agent.FullCycle` | character.py:63 | Eight frame steps return every valid frame to itself |
| `Characters.Character.constructor` | character.py:4-16 | The start position is taken unchecked; the character faces down, at frame 0, not animating |
| `Characters.Character.IsWalkable` | character.py:88-95 | Off-map cells, including negative coordinates, are never walkable; an on-map cell is walkable exactly when -0.06 <= terrain[y][x] < 0.4 |
| `Characters.Character.AnimateCharacter` | character.py:59-63 | The frame becomes (frame + 1) mod 8; position, facing and the running flag are unchanged |
| `Characters.Character.StartAnimation` | character.py:69-75 | Afterwards the animation is running; the frame advances once only if it was not already running |
| `Characters.Character.StopAnimation` | character.py:80-85 | The animation stops and the frame returns to 0; the pose is unchanged |
| `Characters.Character.Move` | character.py:98-115 | The new pose is `Agent.Step` of the old pose with the character's band; the animation is started whether or not the move was accepted |
| `Characters.WalkBandLabels` | character.py:94 | On the map's label scale, the character's band is exactly the water and plains elevations from -0.06 up |
| `Characters.WalksOnWater` | character.py:94 | Some elevation that the map labels water is walkable for the character |
| `Enemies.Enemy.constructor` | enemy.py:5-17 | The start position is taken unchecked; the enemy faces down, at frame 0, not animating |
| `Enemies.Enemy.IsWalkable` | enemy.py:88-95 | Off-map cells are never walkable; an on-map cell is walkable exactly when 0.2 <= terrain[y][x] < 0.8 |
| `Enemies.Enemy.AnimateEnemy` | enemy.py:59-63 | The frame becomes (frame + 1) mod 8; position, facing and the running flag are unchanged |
| `Enemies.Enemy.StartAnimation` | enemy.py:69-75 | Afterwards the animation is running and the frame is unchanged, because the frame step is never called |
| `Enemies.Enemy.StopAnimation` | enemy.py:80-85 | The animation stops and the frame returns to 0; the pose is unchanged |
| `Enemies.Enemy.Move` | enemy.py:98-115 | The new pose is `Agent.Step` of the old pose with the enemy's band; the animation is marked running and the frame is unchanged |
| `Enemies.WalkBandLabels` | enemy.py:94 | On the map's label scale, the enemy's band is exactly the plains, hills and mountains elevations |
| `Inventories.Added` | inventory.py:12-22 | The item is present afterwards, with its old count plus the quantity, or the quantity if it was absent; all other keys and counts are unchanged |
| `Inventories.Removed` | inventory.py:24-34 | An absent item changes nothing; a present item stays exactly when old count - quantity > 0, with that count; all other keys and counts are unchanged |
| `Inventories.AddThenRemove` | inventory.py:12-34 | Adding then removing the same positive quantity restores the table when the item was absent or had a positive count |
| `Inventories.UpdatesKeepPositive` | inventory.py:12-34 | Removal, and addition of a positive quantity, keep every stored count positive |
| `Inventories.Inventory.constructor` | inventory.py:7-8 | A new inventory is empty |
| `Inventories.Inventory.AddItem` | inventory.py:12-22 | The table becomes `Added` of the old table |
| `Inventories.Inventory.RemoveItem` | inventory.py:24-34 | The table becomes `Removed` of the old table |
| `Inventories.Inventory.GetItems` | inventory.py:36-42 | Returns the stored table |

## Left out

- Perlin noise generation and its min-max normalisation (map_generation.py:6-35) are a foreign library call plus float arithmetic. Elevation grids are inputs instead. The normalisation divides by zero on a flat grid.
- Floating point: elevations are exact reals. A Python float never holds 0.2 exactly, and NaN, which the chain would label high_peaks, has no model.
- Image loading, sprite cropping and all drawing (`create_terrain_image_map`, `load_character_sprites`, `load_enemy_sprites`, `draw_character`, `draw_enemy`, `sprite_sheet.crop`, `ImageTk.PhotoImage`) are toolkit calls. Images are an opaque type parameter; a crop is represented by its box.
- Timer scheduling with `canvas.after` (character.py:67, 78; enemy.py:67, 78): the frame step, start and stop are explicit method calls. The self-rescheduling frame loop and the stop 800 ms after each start are not modelled.
- `canvas.winfo_height()` and `canvas.winfo_width()` are passed to `Move` as plain integers.
- `print(map_text)` (map_generation.py:80) and `save_terrain_images` (map_generation.py:134) are output side effects. `slice_spritesheet` has no `return` and so returns None. `MapGeneration.SliceSpritesheet` returns the table it hands to `save_terrain_images`.
- `MapGeneration.GenerateIsometricMap`: requires that the image table holds the label of every cell and that the grid covers size×size. The source raises KeyError (map_generation.py:55-67) or IndexError (map_generation.py:51) instead; those error paths are not modelled. The game itself always passes a size×size grid and the five-label table (isometric.py:36-38, map_generation.py:92-98).
- `Characters.Character.constructor`: requires the terrain to cover size×size. Otherwise `is_walkable` raises IndexError at character.py:93; that error path is not modelled.
- `Enemies.Enemy.constructor`: requires the terrain to cover size×size. Otherwise `is_walkable` raises IndexError at enemy.py:93; that error path is not modelled.
- `MapGeneration.GenerateIsometricMap`: the size is a `nat`; a negative size, which Python's `range` treats as empty, is not modelled.
- `Inventories.Inventory.GetItems`: returns the table as a value. Python returns the dict object itself, so a caller that mutates it also mutates the inventory; that aliasing is not modelled. Item names are strings and quantities are integers.
- The inventory overlay (`toggle_inventory`, `show_inventory_overlay`, `hide_inventory_overlay`) is Tk UI.
- `last_position`, the sprite tables and the remaining constructor arguments serve drawing only.
- isometric.py is window, scrollbar and key-binding glue and is not part of this model. utilities.py is filesystem output and is not part of this model.
