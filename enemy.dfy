/**
 The enemy: the same grid pose and eight-frame animation as the character,
 over the elevation band [0.2, 0.8). Starting its animation marks it running
 but never advances a frame, because the frame step is named without being
 called.
 */
module Enemies {
  import opened Terrain
  import opened Agent

  /** The enemy walks where the elevation is at least 0.2 and below 0.8. */
  const WalkBand: Band := Band(0.2, 0.8)

  class Enemy {
    /** Side length of the square map, and the elevation grid read as `terrain[y][x]`. */
    const size: int
    const terrain: seq<seq<real>>

    var x: int
    var y: int
    var direction: string
    var currentFrame: int
    var animationRunning: bool

    /** The terrain covers the map, and the frame counter stays within the eight frames. */
    ghost predicate Valid()
      reads this
    {
      Covers(terrain, size) && 0 <= currentFrame < FrameCount
    }

    function CurrentPose(): Pose
      reads this
    {
      Pose(x, y, direction)
    }

    /** The start position is taken as given, without a walkability check; the enemy faces down. */
    constructor (size: int, terrain: seq<seq<real>>, startX: int := 0, startY: int := 0)
      requires Covers(terrain, size)
      ensures Valid() && this.size == size && this.terrain == terrain
      ensures CurrentPose() == Pose(startX, startY, "down")
      ensures currentFrame == 0 && !animationRunning
    {
      this.size := size;
      this.terrain := terrain;
      x, y := startX, startY;
      direction := "down";
      currentFrame := 0;
      animationRunning := false;
    }

    /** Off-map cells are never walkable; an on-map cell is walkable exactly when its elevation is in [0.2, 0.8). */
    function IsWalkable(x: int, y: int): (r: bool)
      requires Covers(terrain, size)
      ensures !InBounds(size, x, y) ==> !r
      ensures InBounds(size, x, y) ==> (r <==> 0.2 <= terrain[y][x] < 0.8)
    {
      Walkable(terrain, size, WalkBand, x, y)
    }

    /** One frame step; the rescheduling of the next step is left to the caller. */
    method AnimateEnemy()
      requires Valid()
      modifies this
      ensures Valid()
      ensures currentFrame == NextFrame(old(currentFrame))
      ensures CurrentPose() == old(CurrentPose()) && animationRunning == old(animationRunning)
    {
      currentFrame := NextFrame(currentFrame);
    }

    /** Starting marks the animation running and leaves the frame where it was. */
    method StartAnimation()
      requires Valid()
      modifies this
      ensures Valid() && animationRunning
      ensures currentFrame == old(currentFrame)
      ensures CurrentPose() == old(CurrentPose())
    {
      if !animationRunning {
        animationRunning := true;
      }
    }

    method StopAnimation()
      requires Valid()
      modifies this
      ensures Valid()
      ensures !animationRunning && currentFrame == 0
      ensures CurrentPose() == old(CurrentPose())
    {
      animationRunning := false;
      currentFrame := 0;
    }

    /**
     Moves one cell in direction `d` when the edge guard holds and the target
     is walkable, then starts the animation whether or not the move was taken.
     The canvas height and width stand for the canvas queries of the down and
     right guards.
     */
    method Move(d: string, canvasHeight: int, canvasWidth: int)
      requires Valid()
      modifies this
      ensures Valid()
      ensures CurrentPose() == Step(terrain, size, WalkBand, old(CurrentPose()), d, canvasHeight, canvasWidth)
      ensures animationRunning && currentFrame == old(currentFrame)
    {
      if d == "up" && y > 0 && IsWalkable(x, y - 1) {
        y := y - 1;
        direction := "up";
      } else if d == "down" && y < canvasHeight - 1 && IsWalkable(x, y + 1) {
        y := y + 1;
        direction := "down";
      } else if d == "left" && x > 0 && IsWalkable(x - 1, y) {
        x := x - 1;
        direction := "left";
      } else if d == "right" && x < canvasWidth - 1 && IsWalkable(x + 1, y) {
        x := x + 1;
        direction := "right";
      }
      StartAnimation();
    }
  }

  /**
   Read against the map's labels, the enemy's band is exactly the plains,
   hills and mountains bands: it never enters water or high peaks.
   */
  lemma WalkBandLabels(e: real)
    ensures WalkBand.low <= e < WalkBand.high <==> Classify(e) in {Plains, Hills, Mountains}
  {
  }
}
