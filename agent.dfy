/**
 What the character and the enemy have in common: a grid pose, a walkability
 test made of a bounds check and an elevation band, the guarded one-step move,
 and the eight-frame animation counter. Each of the two classes supplies its
 own band.
 */
module Agent {
  import opened Terrain

  /** Grid position and facing; the facing is the direction token of the last accepted move. */
  datatype Pose = Pose(x: int, y: int, direction: string)

  /** A half-open elevation band [low, high) of walkable terrain. */
  datatype Band = Band(low: real, high: real)

  /** Cell (x, y) lies on the `size`-by-`size` map. */
  predicate InBounds(size: int, x: int, y: int)
  {
    0 <= x < size && 0 <= y < size
  }

  /** The bounds check comes first; only an in-bounds cell's elevation `terrain[y][x]` is read. */
  predicate Walkable(terrain: seq<seq<real>>, size: int, band: Band, x: int, y: int)
    requires Covers(terrain, size)
  {
    if InBounds(size, x, y) then
      var elevation := terrain[y][x];
      elevation >= band.low && elevation < band.high
    else
      false
  }

  /** The neighbour one step from (x, y) in direction d, or (x, y) itself for an unknown token. */
  function Neighbour(x: int, y: int, d: string): (int, int)
  {
    if d == "up" then (x, y - 1)
    else if d == "down" then (x, y + 1)
    else if d == "left" then (x - 1, y)
    else if d == "right" then (x + 1, y)
    else (x, y)
  }

  /**
   The guarded move: the first branch whose token matches, whose edge guard
   holds and whose target is walkable commits the step and the new facing;
   otherwise nothing changes. The up and left guards compare against 0; the
   down and right guards compare against the canvas height and width.
   */
  function Step(terrain: seq<seq<real>>, size: int, band: Band, p: Pose, d: string,
                canvasHeight: int, canvasWidth: int): (q: Pose)
    requires Covers(terrain, size)
    ensures q.y == p.y - 1 <==> d == "up" && p.y > 0 && Walkable(terrain, size, band, p.x, p.y - 1)
    ensures q.y == p.y + 1 <==> d == "down" && p.y < canvasHeight - 1 && Walkable(terrain, size, band, p.x, p.y + 1)
    ensures q.x == p.x - 1 <==> d == "left" && p.x > 0 && Walkable(terrain, size, band, p.x - 1, p.y)
    ensures q.x == p.x + 1 <==> d == "right" && p.x < canvasWidth - 1 && Walkable(terrain, size, band, p.x + 1, p.y)
    ensures q.x == p.x && q.y == p.y ==> q == p
    ensures q != p ==> q.direction == d && (q.x, q.y) == Neighbour(p.x, p.y, d)
    ensures q != p ==> InBounds(size, q.x, q.y) && Walkable(terrain, size, band, q.x, q.y)
  {
    if d == "up" && p.y > 0 && Walkable(terrain, size, band, p.x, p.y - 1) then
      Pose(p.x, p.y - 1, "up")
    else if d == "down" && p.y < canvasHeight - 1 && Walkable(terrain, size, band, p.x, p.y + 1) then
      Pose(p.x, p.y + 1, "down")
    else if d == "left" && p.x > 0 && Walkable(terrain, size, band, p.x - 1, p.y) then
      Pose(p.x - 1, p.y, "left")
    else if d == "right" && p.x < canvasWidth - 1 && Walkable(terrain, size, band, p.x + 1, p.y) then
      Pose(p.x + 1, p.y, "right")
    else
      p
  }

  /** A token other than the four direction names never moves anything. */
  lemma UnknownTokenIgnored(terrain: seq<seq<real>>, size: int, band: Band, p: Pose, d: string,
                            canvasHeight: int, canvasWidth: int)
    requires Covers(terrain, size)
    requires d != "up" && d != "down" && d != "left" && d != "right"
    ensures Step(terrain, size, band, p, d, canvasHeight, canvasWidth) == p
  {
  }

  /** Number of animation frames per direction. */
  const FrameCount: nat := 8

  /** One animation step: the frame counter cycles through 0..7. */
  function NextFrame(f: int): (r: int)
    ensures 0 <= r < FrameCount
    ensures 0 <= f < FrameCount - 1 ==> r == f + 1
    ensures f == FrameCount - 1 ==> r == 0
  {
    (f + 1) % FrameCount
  }

  /** The frame after n animation steps from f. */
  function Advance(f: int, n: nat): int
  {
    if n == 0 then f else NextFrame(Advance(f, n - 1))
  }

  /** n steps from a valid frame land on (f + n) mod 8. */
  lemma {:induction false} AdvanceIsModular(f: int, n: nat)
    requires 0 <= f < FrameCount
    ensures Advance(f, n) == (f + n) % FrameCount
  {
    if n > 0 {
      AdvanceIsModular(f, n - 1);
    }
  }

  /** Eight steps bring every valid frame back to itself. */
  lemma FullCycle(f: int)
    requires 0 <= f < FrameCount
    ensures Advance(f, FrameCount) == f
  {
    AdvanceIsModular(f, FrameCount);
  }
}
