/**
 The elevation-to-terrain classification of the map generator: an ordered,
 lower-inclusive if/elif chain over a normalised elevation, ending in a
 catch-all `else`.
 */
module Terrain {

  /** The five terrain labels, in the order of the elevation bands that produce them. */
  datatype Label = Water | Plains | Hills | Mountains | HighPeaks

  /** Position of a label in the order water < plains < hills < mountains < high_peaks. */
  function Rank(l: Label): nat
  {
    match l
    case Water => 0
    case Plains => 1
    case Hills => 2
    case Mountains => 3
    case HighPeaks => 4
  }

  /** The text the generator appends to `map_text` and uses as the image-table key. */
  function Name(l: Label): (s: string)
    ensures |s| > 0
  {
    match l
    case Water => "water"
    case Plains => "plains"
    case Hills => "hills"
    case Mountains => "mountains"
    case HighPeaks => "high_peaks"
  }

  /**
   An elevation grid indexed `grid[row][column]` (row = y) that holds at
   least `size` rows of at least `size` samples, so every cell of the
   `size`-by-`size` map can be read.
   */
  ghost predicate Covers(grid: seq<seq<real>>, size: int)
  {
    size <= |grid| && forall r :: 0 <= r < size ==> size <= |grid[r]|
  }

  /** The lower bounds of the plains, hills, mountains and high-peaks bands. */
  const Thresholds: seq<real> := [0.2, 0.4, 0.6, 0.8]

  /** Number of thresholds in `ts` that `e` has reached (is at or above). */
  function Reached(ts: seq<real>, e: real): (n: nat)
    ensures n <= |ts|
  {
    if ts == [] then 0
    else (if ts[0] <= e then 1 else 0) + Reached(ts[1..], e)
  }

  /**
   The if/elif chain of the generator, with its redundant lower checks kept.
   The label's rank is the number of band thresholds the elevation has
   reached: the chain is total and every boundary is lower-inclusive.
   */
  function Classify(e: real): (l: Label)
    ensures Rank(l) == Reached(Thresholds, e)
  {
    ReachedThresholds(e);
    if e < 0.2 then Water
    else if 0.2 <= e < 0.4 then Plains
    else if 0.4 <= e < 0.6 then Hills
    else if 0.6 <= e < 0.8 then Mountains
    else HighPeaks
  }

  /** Unfolds `Reached` over the four literal thresholds. */
  lemma ReachedThresholds(e: real)
    ensures Reached(Thresholds, e) ==
              (if 0.2 <= e then 1 else 0) + (if 0.4 <= e then 1 else 0) +
              (if 0.6 <= e then 1 else 0) + (if 0.8 <= e then 1 else 0)
  {
    var t1, t2, t3 := [0.4, 0.6, 0.8], [0.6, 0.8], [0.8];
    assert Thresholds[1..] == t1 && t1[1..] == t2 && t2[1..] == t3 && t3[1..] == [];
    assert Reached(t3, e) == if 0.8 <= e then 1 else 0;
    assert Reached(t2, e) == (if 0.6 <= e then 1 else 0) + Reached(t3, e);
    assert Reached(t1, e) == (if 0.4 <= e then 1 else 0) + Reached(t2, e);
  }

  lemma {:induction false} ReachedMonotone(ts: seq<real>, e1: real, e2: real)
    requires e1 <= e2
    ensures Reached(ts, e1) <= Reached(ts, e2)
  {
    if ts != [] {
      ReachedMonotone(ts[1..], e1, e2);
    }
  }

  /** A higher elevation never yields an earlier label. */
  lemma ClassifyMonotone(e1: real, e2: real)
    requires e1 <= e2
    ensures Rank(Classify(e1)) <= Rank(Classify(e2))
  {
    ReachedMonotone(Thresholds, e1, e2);
  }


  /**
   Each label owns exactly the half-open band between its own threshold
   (none for water) and the next one (none for high peaks).
   */
  lemma ClassifyBand(e: real, l: Label)
    ensures Classify(e) == l <==>
              (l == Water || Thresholds[Rank(l) - 1] <= e) &&
              (l == HighPeaks || e < Thresholds[Rank(l)])
  {
  }

  /** The band boundaries themselves go to the upper band. */
  lemma BoundariesLowerInclusive()
    ensures Classify(0.2) == Plains && Classify(0.4) == Hills
    ensures Classify(0.6) == Mountains && Classify(0.8) == HighPeaks
    ensures forall e: real :: e < 0.2 ==> Classify(e) == Water
  {
  }
}
