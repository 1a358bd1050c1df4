/**
 The map generator's grid walks: laying out the classified elevation grid as
 isometric tiles, and cutting a sprite sheet into square crop boxes.
 */
module MapGeneration {
  import opened Terrain

  /** Python's floor division `a // b`; Dafny's `/` is Euclidean, which differs for b < 0. */
  function FloorDiv(a: int, b: int): (q: int)
    requires b != 0
    ensures b > 0 ==> q * b <= a < q * b + b
    ensures b < 0 ==> q * b + b < a <= q * b
  {
    if b > 0 then a / b else (-a) / (-b)
  }

  /** One record of the isometric map: the tile's image and its screen position. */
  datatype Tile<I> = Tile(image: I, x: int, y: int)

  /** Screen position of grid cell (x, y) for the given tile size. */
  function IsoPosition(x: int, y: int, tileWidth: int, tileHeight: int): (int, int)
  {
    ((x - y) * FloorDiv(tileWidth, 2), (x + y) * FloorDiv(tileHeight, 2))
  }

  /**
   Cell (x, y) is recorded at index y * size + x of both outputs: the label
   text of its elevation, and a tile holding the image stored under that text
   at the cell's isometric position.
   */
  ghost predicate Recorded<I>(noise: seq<seq<real>>, images: map<string, I>,
                              tileWidth: int, tileHeight: int, size: nat,
                              isoMap: seq<Tile<I>>, mapText: seq<string>, x: nat, y: nat)
  {
    var k := y * size + x;
    && y < |noise| && x < |noise[y]|
    && k < |isoMap| && k < |mapText|
    && mapText[k] == Name(Classify(noise[y][x]))
    && mapText[k] in images
    && isoMap[k].image == images[mapText[k]]
    && (isoMap[k].x, isoMap[k].y) == IsoPosition(x, y, tileWidth, tileHeight)
  }

  /**
   Walks the grid in row-major order, classifying each elevation and emitting
   one tile record and one label text per cell.
   */
  method GenerateIsometricMap<I>(size: nat, noise: seq<seq<real>>, images: map<string, I>,
                                 tileWidth: int, tileHeight: int)
    returns (isoMap: seq<Tile<I>>, mapText: seq<string>)
    requires Covers(noise, size)
    requires forall y, x :: 0 <= y < size && 0 <= x < size ==> Name(Classify(noise[y][x])) in images
    ensures |isoMap| == size * size && |mapText| == size * size
    ensures forall y: nat, x: nat :: y < size && x < size ==>
              Recorded(noise, images, tileWidth, tileHeight, size, isoMap, mapText, x, y)
    ensures forall k :: 0 <= k < |isoMap| ==> mapText[k] in images && isoMap[k].image == images[mapText[k]]
  {
    isoMap, mapText := [], [];
    for y := 0 to size
      invariant |isoMap| == |mapText| == y * size
      invariant forall yy: nat, xx: nat :: yy < y && xx < size ==>
                  Recorded(noise, images, tileWidth, tileHeight, size, isoMap, mapText, xx, yy)
      invariant forall k :: 0 <= k < |isoMap| ==> mapText[k] in images && isoMap[k].image == images[mapText[k]]
    {
      for x := 0 to size
        invariant |isoMap| == |mapText| == y * size + x
        invariant forall yy: nat, xx: nat :: (yy < y && xx < size) || (yy == y && xx < x) ==>
                    Recorded(noise, images, tileWidth, tileHeight, size, isoMap, mapText, xx, yy)
        invariant forall k :: 0 <= k < |isoMap| ==> mapText[k] in images && isoMap[k].image == images[mapText[k]]
      {
        var elevation := noise[y][x];
        var text := Name(Classify(elevation));
        var tileImage := images[text];
        var isoX := (x - y) * FloorDiv(tileWidth, 2);
        var isoY := (x + y) * FloorDiv(tileHeight, 2);
        var tile := Tile(tileImage, isoX, isoY);
        forall yy: nat, xx: nat | (yy < y && xx < size) || (yy == y && xx < x)
          ensures Recorded(noise, images, tileWidth, tileHeight, size, isoMap + [tile], mapText + [text], xx, yy)
        {
          RecordedAppend(noise, images, tileWidth, tileHeight, size, isoMap, mapText, xx, yy, tile, text);
        }
        assert Recorded(noise, images, tileWidth, tileHeight, size, isoMap + [tile], mapText + [text], x, y);
        mapText := mapText + [text];
        isoMap := isoMap + [tile];
      }
    }
  }

  /** Appending records keeps every cell already recorded where it was. */
  lemma RecordedAppend<I>(noise: seq<seq<real>>, images: map<string, I>,
                          tileWidth: int, tileHeight: int, size: nat,
                          isoMap: seq<Tile<I>>, mapText: seq<string>, x: nat, y: nat,
                          tile: Tile<I>, text: string)
    requires Recorded(noise, images, tileWidth, tileHeight, size, isoMap, mapText, x, y)
    ensures Recorded(noise, images, tileWidth, tileHeight, size, isoMap + [tile], mapText + [text], x, y)
  {
  }

  /** With tiles at least two pixels wide and high, distinct cells land on distinct screen positions. */
  lemma IsoPositionInjective(x1: int, y1: int, x2: int, y2: int, tileWidth: int, tileHeight: int)
    requires tileWidth >= 2 && tileHeight >= 2
    requires IsoPosition(x1, y1, tileWidth, tileHeight) == IsoPosition(x2, y2, tileWidth, tileHeight)
    ensures x1 == x2 && y1 == y2
  {
    CancelPositive(x1 - y1, x2 - y2, FloorDiv(tileWidth, 2));
    CancelPositive(x1 + y1, x2 + y2, FloorDiv(tileHeight, 2));
  }

  /**
   A cell on the diagonal x = y sits at screen column 0 for every tile width;
   for tiles at least two pixels wide, only diagonal cells do.
   */
  lemma IsoDiagonal(x: int, y: int, tileWidth: int, tileHeight: int)
    ensures x == y ==> IsoPosition(x, y, tileWidth, tileHeight).0 == 0
    ensures tileWidth >= 2 && IsoPosition(x, y, tileWidth, tileHeight).0 == 0 ==> x == y
  {
    if tileWidth >= 2 && IsoPosition(x, y, tileWidth, tileHeight).0 == 0 {
      CancelPositive(x - y, 0, FloorDiv(tileWidth, 2));
    }
  }

  /** A positive factor can be cancelled from both sides of an equation. */
  lemma CancelPositive(u: int, v: int, a: int)
    requires a > 0 && u * a == v * a
    ensures u == v
  {
  }

  /** A crop box `(left, upper, right, lower)` in sprite-sheet pixels. */
  datatype Box = Box(left: int, upper: int, right: int, lower: int)

  /** The crop box of the tile in row i, column j. */
  function CropBox(i: int, j: int, tileSize: int): Box
  {
    Box(j * tileSize, i * tileSize, (j + 1) * tileSize, (i + 1) * tileSize)
  }

  /** Outcome of slicing: the key-to-box table, or the division by a zero tile size. */
  datatype Sliced = Tiles(boxes: map<(int, int), Box>) | ZeroDivisionError

  /**
   Cuts a `width`-by-`height` sprite sheet into square tiles of `tileSize`,
   keyed by (row, column); a partial tile at the right or bottom edge is dropped.
   */
  method SliceSpritesheet(width: nat, height: nat, tileSize: int) returns (r: Sliced)
    ensures r.ZeroDivisionError? <==> tileSize == 0
    ensures r.Tiles? ==> forall key :: key in r.boxes <==>
              0 <= key.0 < FloorDiv(height, tileSize) && 0 <= key.1 < FloorDiv(width, tileSize)
    ensures r.Tiles? ==> forall key :: key in r.boxes ==> r.boxes[key] == CropBox(key.0, key.1, tileSize)
    ensures tileSize < 0 ==> r == Tiles(map[])
  {
    if tileSize == 0 {
      return ZeroDivisionError;
    }
    var tilesX := FloorDiv(width, tileSize);
    var tilesY := FloorDiv(height, tileSize);
    var boxes: map<(int, int), Box> := map[];
    var i := 0;
    while i < tilesY
      invariant 0 <= i <= if tilesY < 0 then 0 else tilesY
      invariant forall key :: key in boxes <==> 0 <= key.0 < i && 0 <= key.1 < tilesX
      invariant forall key :: key in boxes ==> boxes[key] == CropBox(key.0, key.1, tileSize)
    {
      var j := 0;
      while j < tilesX
        invariant 0 <= j <= if tilesX < 0 then 0 else tilesX
        invariant forall key :: key in boxes <==>
                    (0 <= key.0 < i && 0 <= key.1 < tilesX) || (key.0 == i && 0 <= key.1 < j)
        invariant forall key :: key in boxes ==> boxes[key] == CropBox(key.0, key.1, tileSize)
      {
        boxes := boxes[(i, j) := CropBox(i, j, tileSize)];
        j := j + 1;
      }
      i := i + 1;
    }
    if tileSize < 0 {
      assert boxes == map[];
    }
    return Tiles(boxes);
  }

  /** Every box of a positive tile size is a full tile lying inside the sheet. */
  lemma CropBoxInsideSheet(width: nat, height: nat, tileSize: int, i: int, j: int)
    requires tileSize > 0
    requires 0 <= i < FloorDiv(height, tileSize) && 0 <= j < FloorDiv(width, tileSize)
    ensures var b := CropBox(i, j, tileSize);
            0 <= b.left && b.right <= width && 0 <= b.upper && b.lower <= height &&
            b.right - b.left == tileSize && b.lower - b.upper == tileSize
  {
    MulMonotone(j + 1, FloorDiv(width, tileSize), tileSize);
    MulMonotone(i + 1, FloorDiv(height, tileSize), tileSize);
  }

  /** Boxes under different keys do not overlap. */
  lemma CropBoxesDisjoint(tileSize: int, i1: int, j1: int, i2: int, j2: int)
    requires tileSize > 0 && (i1, j1) != (i2, j2)
    ensures var b1, b2 := CropBox(i1, j1, tileSize), CropBox(i2, j2, tileSize);
            b1.right <= b2.left || b2.right <= b1.left || b1.lower <= b2.upper || b2.lower <= b1.upper
  {
    if j1 < j2 {
      MulMonotone(j1 + 1, j2, tileSize);
    } else if j2 < j1 {
      MulMonotone(j2 + 1, j1, tileSize);
    } else if i1 < i2 {
      MulMonotone(i1 + 1, i2, tileSize);
    } else {
      MulMonotone(i2 + 1, i1, tileSize);
    }
  }

  lemma MulMonotone(u: int, v: int, a: int)
    requires u <= v && a >= 0
    ensures u * a <= v * a
  {
  }
}
