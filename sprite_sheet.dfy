/** Pure arithmetic behind the sprite-sheet animator: where a tile sits in the
    grid, the texture offset it is shown at, how the tile index advances, and
    how many tile advances an accumulated display time pays for. */
module SpriteSheet {

  /** A 2D normalized texture coordinate (three.js Vector2 on `real`). */
  datatype Vec2 = Vec2(x: real, y: real)

  /** Column of a tile in a row-major grid `tilesH` tiles wide. */
  function Column(tile: nat, tilesH: nat): (c: nat)
    requires tilesH > 0
    ensures c < tilesH
  {
    tile % tilesH
  }

  /** Row of a tile in a row-major grid `tilesH` tiles wide (`Math.floor(tile / tilesH)`). */
  function Row(tile: nat, tilesH: nat): (r: nat)
    requires tilesH > 0
    ensures r * tilesH + Column(tile, tilesH) == tile
    ensures r * tilesH <= tile < (r + 1) * tilesH
  {
    tile / tilesH
  }

  /** The offset `updatePosition` publishes for `tile`:
      (column / tilesHorizontal, row / tilesVertical). Both components lie in
      [0, 1) when the tile is inside the grid. */
  function TileOffset(tile: nat, tilesH: nat, tilesV: nat): (r: Vec2)
    requires tilesH > 0 && tilesV > 0
    ensures 0.0 <= r.x < 1.0 && 0.0 <= r.y
    ensures tile < tilesH * tilesV ==> r.y < 1.0
  {
    RowInGrid(tile, tilesH, tilesV);
    Vec2(Column(tile, tilesH) as real / tilesH as real,
         Row(tile, tilesH) as real / tilesV as real)
  }

  /** Scaling the offset back by the grid size gives the tile's column and row. */
  lemma TileOffsetScales(tile: nat, tilesH: nat, tilesV: nat)
    requires tilesH > 0 && tilesV > 0
    ensures TileOffset(tile, tilesH, tilesV).x * tilesH as real == Column(tile, tilesH) as real
    ensures TileOffset(tile, tilesH, tilesV).y * tilesV as real == Row(tile, tilesH) as real
  {
  }

  /** A tile inside the `tilesH` x `tilesV` grid lies in a row below `tilesV`. */
  lemma RowInGrid(tile: nat, tilesH: nat, tilesV: nat)
    requires tilesH > 0
    ensures tile < tilesH * tilesV ==> Row(tile, tilesH) < tilesV
  {
    var row := Row(tile, tilesH);
    if row >= tilesV {
      MulMono(tilesV, row, tilesH);
    }
  }

  lemma MulMono(a: nat, b: nat, c: nat)
    requires a <= b
    ensures a * c <= b * c
  {
  }

  /** The offset identifies the tile: two tiles of the grid shown at the same
      offset are the same tile (the offset is the inverse of the tile index). */
  lemma TileOffsetInjective(t1: nat, t2: nat, tilesH: nat, tilesV: nat)
    requires tilesH > 0 && tilesV > 0
    requires TileOffset(t1, tilesH, tilesV) == TileOffset(t2, tilesH, tilesV)
    ensures t1 == t2
  {
    var o1, o2 := TileOffset(t1, tilesH, tilesV), TileOffset(t2, tilesH, tilesV);
    TileOffsetScales(t1, tilesH, tilesV);
    TileOffsetScales(t2, tilesH, tilesV);
    assert Column(t1, tilesH) == Column(t2, tilesH) by {
      assert Column(t1, tilesH) as real == o1.x * tilesH as real;
    }
    assert Row(t1, tilesH) == Row(t2, tilesH) by {
      assert Row(t1, tilesH) as real == o1.y * tilesV as real;
    }
  }

  /** The tile after one advance: `currentTile++`, reset to 0 when it
      equals `numberOfTiles`. */
  function NextTile(tile: nat, numberOfTiles: nat): (r: nat)
    ensures tile < numberOfTiles ==> r < numberOfTiles
    ensures tile >= numberOfTiles ==> r == tile + 1
  {
    if tile + 1 == numberOfTiles then 0 else tile + 1
  }

  /** Inside the range one advance is the successor modulo `numberOfTiles`. */
  lemma NextTileIsSuccMod(tile: nat, numberOfTiles: nat)
    requires tile < numberOfTiles
    ensures NextTile(tile, numberOfTiles) == (tile + 1) % numberOfTiles
  {
    if tile + 1 == numberOfTiles {
      ModOfDecomposition(tile + 1, numberOfTiles, 1, 0);
    } else {
      ModOfDecomposition(tile + 1, numberOfTiles, 0, tile + 1);
    }
  }

  /** The tile after `k` successive advances. */
  function TileAfter(tile: nat, numberOfTiles: nat, k: nat): nat
  {
    if k == 0 then tile else NextTile(TileAfter(tile, numberOfTiles, k - 1), numberOfTiles)
  }

  /** A tile in range stays in range however many advances follow. */
  lemma {:induction false} TileAfterStaysInRange(tile: nat, numberOfTiles: nat, k: nat)
    requires tile < numberOfTiles
    ensures TileAfter(tile, numberOfTiles, k) < numberOfTiles
  {
    if k > 0 {
      TileAfterStaysInRange(tile, numberOfTiles, k - 1);
    }
  }

  /** From a tile in range, `k` advances land on `(tile + k) mod numberOfTiles`. */
  lemma {:induction false} TileAfterInRange(tile: nat, numberOfTiles: nat, k: nat)
    requires tile < numberOfTiles
    ensures TileAfter(tile, numberOfTiles, k) == (tile + k) % numberOfTiles
  {
    if k > 0 {
      TileAfterInRange(tile, numberOfTiles, k - 1);
      TileAfterStaysInRange(tile, numberOfTiles, k - 1);
      var prev := TileAfter(tile, numberOfTiles, k - 1);
      NextTileIsSuccMod(prev, numberOfTiles);
      ModSucc(tile + k - 1, numberOfTiles);
    }
  }

  lemma ModSucc(a: nat, n: nat)
    requires n > 0
    ensures (a % n + 1) % n == (a + 1) % n
  {
    var r := a % n;
    if r + 1 == n {
      ModOfDecomposition(a + 1, n, a / n + 1, 0);
      ModOfDecomposition(r + 1, n, 1, 0);
    } else {
      ModOfDecomposition(a + 1, n, a / n, r + 1);
      ModOfDecomposition(r + 1, n, 0, r + 1);
    }
  }

  /** Euclidean division is unique: `a == q * n + r` with `0 <= r < n`
      means `r` is `a % n`. */
  lemma ModOfDecomposition(a: int, n: int, q: int, r: int)
    requires n > 0 && 0 <= r < n && a == q * n + r
    ensures a % n == r
  {
    var q', r' := a / n, a % n;
    assert (q - q') * n == r' - r;
    if q > q' {
      assert (q - q') * n >= n by { IntMulMono(1, q - q', n); }
    } else if q < q' {
      assert (q' - q) * n >= n by { IntMulMono(1, q' - q, n); }
    }
  }

  lemma IntMulMono(a: int, b: int, c: int)
    requires a <= b && c >= 0
    ensures a * c <= b * c
  {
  }

  /** A whole cycle of `numberOfTiles` advances returns to the starting tile. */
  lemma FullCycle(tile: nat, numberOfTiles: nat)
    requires tile < numberOfTiles
    ensures TileAfter(tile, numberOfTiles, numberOfTiles) == tile
  {
    TileAfterInRange(tile, numberOfTiles, numberOfTiles);
    ModOfDecomposition(tile + numberOfTiles, numberOfTiles, 1, tile);
  }

  /** A tile at or beyond `numberOfTiles` never meets the wrap test
      `== numberOfTiles` again: it only grows. */
  lemma {:induction false} OutOfRangeNeverWraps(tile: nat, numberOfTiles: nat, k: nat)
    requires tile >= numberOfTiles
    ensures TileAfter(tile, numberOfTiles, k) == tile + k
  {
    if k > 0 {
      OutOfRangeNeverWraps(tile, numberOfTiles, k - 1);
    }
  }

  /** Termination measure of the advance loop: how many whole durations the
      time holds while it still exceeds one duration. */
  function Measure(time: real, duration: real): nat
    requires duration > 0.0
  {
    if time > duration then (time / duration).Floor else 0
  }

  lemma MeasureDecreases(time: real, duration: real)
    requires duration > 0.0 && time > duration
    ensures Measure(time - duration, duration) < Measure(time, duration)
  {
    var q := time / duration;
    assert q * duration == time;
    assert (q - 1.0) * duration == time - duration;
    var z := (time - duration) / duration;
    assert z * duration == time - duration;
    assert (z - (q - 1.0)) * duration == 0.0;
    if z > q - 1.0 {
      RealMulPos(z - (q - 1.0), duration);
    } else if z < q - 1.0 {
      RealMulPos(q - 1.0 - z, duration);
    }
    assert z == q - 1.0;
  }

  /** Time paid for `k` advances, one duration each, summed the way the loop
      subtracts it. */
  function Spent(k: nat, duration: real): real
  {
    if k == 0 then 0.0 else Spent(k - 1, duration) + duration
  }

  /** The summed time of `k` advances is `k` durations. */
  lemma {:induction false} SpentIsProduct(k: nat, duration: real)
    ensures Spent(k, duration) == k as real * duration
  {
    if k > 0 {
      SpentIsProduct(k - 1, duration);
      SuccTimes(k - 1, duration);
    }
  }

  /** Without a positive duration the advance loop never ends: once the time
      exceeds the duration, it still does after any number of iterations. */
  lemma {:induction false} NoProgressWithoutPositiveDuration(time: real, duration: real, k: nat)
    requires duration <= 0.0 && time > duration
    ensures time - Spent(k, duration) > duration
  {
    if k > 0 {
      NoProgressWithoutPositiveDuration(time, duration, k - 1);
    }
  }

  /** Number of iterations of `while (time > duration) time -= duration`
      started from `time`. */
  function Steps(time: real, duration: real): (k: nat)
    requires duration > 0.0
    ensures time <= duration <==> k == 0
    decreases Measure(time, duration)
  {
    if time > duration then
      MeasureDecreases(time, duration);
      1 + Steps(time - duration, duration)
    else 0
  }

  /** What the loop leaves behind: after `k` subtractions the remainder no
      longer exceeds one duration, and before the last one it still did. */
  lemma {:induction false} StepsRemainder(time: real, duration: real)
    requires duration > 0.0
    ensures var k := Steps(time, duration);
      && time - k as real * duration <= duration
      && (k > 0 ==> time - (k - 1) as real * duration > duration)
    decreases Measure(time, duration)
  {
    if time > duration {
      MeasureDecreases(time, duration);
      StepsRemainder(time - duration, duration);
      SuccTimes(Steps(time - duration, duration), duration);
    }
  }

  /** The two conditions of Steps' contract determine the count uniquely. */
  lemma StepsUnique(time: real, duration: real, k: nat)
    requires duration > 0.0
    requires time - k as real * duration <= duration
    requires k > 0 ==> time - (k - 1) as real * duration > duration
    ensures k == Steps(time, duration)
  {
    var s := Steps(time, duration);
    StepsRemainder(time, duration);
    if k < s {
      StepsBound(time, duration, k, s - 1);
      assert false;
    } else if s < k {
      StepsBound(time, duration, s, k - 1);
      assert false;
    }
  }

  /** Fewer subtractions leave at least as much time. */
  lemma StepsBound(time: real, duration: real, a: nat, b: nat)
    requires duration > 0.0 && a <= b
    requires time - b as real * duration > duration
    ensures time - a as real * duration > duration
  {
    RealMulMono(a as real, b as real, duration);
  }

  lemma SuccTimes(k: nat, d: real)
    ensures (k + 1) as real * d == k as real * d + d
  {
  }

  lemma RealMulPos(a: real, d: real)
    requires a > 0.0 && d > 0.0
    ensures a * d > 0.0
  {
  }

  lemma RealMulMono(a: real, b: real, d: real)
    requires a <= b && d > 0.0
    ensures a * d <= b * d
  {
  }

  /** Feeding exactly `numberOfTiles` durations to an animator at rest pays
      for only `numberOfTiles - 1` advances: the last whole duration stays as
      the remainder, because the loop test is a strict `>`. */
  lemma FullCycleTimeLeavesOneTileShort(numberOfTiles: nat, duration: real)
    requires numberOfTiles > 0 && duration > 0.0
    ensures Steps(numberOfTiles as real * duration, duration) == numberOfTiles - 1
    ensures numberOfTiles as real * duration - (numberOfTiles - 1) as real * duration == duration
  {
    StepsUnique(numberOfTiles as real * duration, duration, numberOfTiles - 1);
  }

  /** Two sample offsets: tile 3 of a 5x1 sheet and of a 1x5 sheet. */
  lemma OffsetExamples()
    ensures TileOffset(3, 5, 1) == Vec2(0.6, 0.0)
    ensures TileOffset(3, 1, 5) == Vec2(0.0, 0.6)
  {
  }
}
