/** The sprite-sheet animator of src/index.ts: it owns a tile index and an
    accumulated display time and writes the offset of a texture it shares
    with the sprite that shows it. */
module Animation {
  import opened SpriteSheet

  /** The two fields of a three.js texture that the animator writes. Image
      data, wrap modes and loading are not modelled. */
  class Texture {
    var offset: Vec2
    var repeat: Vec2

    /** A freshly loaded texture: three.js starts offset at (0, 0) and repeat at (1, 1). */
    constructor ()
      ensures offset == Vec2(0.0, 0.0) && repeat == Vec2(1.0, 1.0)
    {
      offset := Vec2(0.0, 0.0);
      repeat := Vec2(1.0, 1.0);
    }
  }

  class TextureAnimator {
    /** Shared with the sprite's material; the constructor and the updates
        write through this reference. */
    const texture: Texture
    const tilesHorizontal: nat
    const tilesVertical: nat
    /** May be smaller than the grid when the last row has blank tiles. */
    const numberOfTiles: nat
    const tileDisplayDuration: real
    /** How long the current tile has been shown, in milliseconds. */
    var currentDisplayTime: real
    var currentTile: nat

    /** The grid has at least one column and one row, so every offset
        division is defined. */
    predicate Valid()
    {
      tilesHorizontal > 0 && tilesVertical > 0
    }

    /** The tile index names an existing tile, so the wrap test can fire. */
    predicate InRange()
      reads this
    {
      currentTile < numberOfTiles
    }

    /** Records the geometry, sets the texture's repeat to one tile and
        publishes the starting tile's offset at once. The starting tile is
        not checked against `numTiles`, as in the source. */
    constructor (texture: Texture, tilesHoriz: nat, tilesVert: nat, numTiles: nat,
                 tileDispDuration: real, currentTile: nat := 0)
      requires tilesHoriz > 0 && tilesVert > 0
      modifies texture
      ensures Valid()
      ensures this.texture == texture
      ensures tilesHorizontal == tilesHoriz && tilesVertical == tilesVert
      ensures numberOfTiles == numTiles && tileDisplayDuration == tileDispDuration
      ensures currentDisplayTime == 0.0 && this.currentTile == currentTile
      ensures InRange() <==> currentTile < numTiles
      ensures texture.repeat == Vec2(1.0 / tilesHoriz as real, 1.0 / tilesVert as real)
      ensures texture.offset == TileOffset(currentTile, tilesHoriz, tilesVert)
    {
      this.texture := texture;
      tilesHorizontal := tilesHoriz;
      tilesVertical := tilesVert;
      numberOfTiles := numTiles;
      tileDisplayDuration := tileDispDuration;
      currentDisplayTime := 0.0;
      this.currentTile := currentTile;
      new;
      texture.repeat := Vec2(1.0 / tilesHorizontal as real, 1.0 / tilesVertical as real);
      UpdatePosition();
    }

    /** Publishes the current tile's offset (column / tilesHorizontal,
        row / tilesVertical) and touches nothing else. */
    method UpdatePosition()
      requires Valid()
      modifies texture`offset
      ensures texture.offset == TileOffset(currentTile, tilesHorizontal, tilesVertical)
      ensures texture.repeat == old(texture.repeat)
    {
      var currentColumn := Column(currentTile, tilesHorizontal);
      var currentRow := Row(currentTile, tilesHorizontal);
      texture.offset := Vec2(currentColumn as real / tilesHorizontal as real,
                             currentRow as real / tilesVertical as real);
    }

    /** Adds `milliSec` to the display time and advances one tile per whole
        duration the time exceeds, republishing the offset after each
        advance. The loop ends only because the duration is positive. */
    method Update(milliSec: real)
      requires Valid() && tileDisplayDuration > 0.0
      modifies this`currentDisplayTime, this`currentTile, texture`offset
      // the whole new state, by the loop's step count
      ensures var k := Steps(old(currentDisplayTime) + milliSec, tileDisplayDuration);
        && old(currentDisplayTime) + milliSec == currentDisplayTime + Spent(k, tileDisplayDuration)
        && currentTile == TileAfter(old(currentTile), numberOfTiles, k)
        && texture.offset == (if k == 0 then old(texture.offset)
                              else TileOffset(currentTile, tilesHorizontal, tilesVertical))
      // what the source relies on
      ensures currentDisplayTime <= tileDisplayDuration
      ensures old(InRange()) ==> InRange()
      ensures old(currentDisplayTime) + milliSec <= tileDisplayDuration ==>
        currentTile == old(currentTile) && texture.offset == old(texture.offset)
      ensures texture.repeat == old(texture.repeat)
    {
      ghost var t0 := old(currentDisplayTime) + milliSec;
      ghost var k: nat := 0;
      currentDisplayTime := currentDisplayTime + milliSec;
      while currentDisplayTime > tileDisplayDuration
        invariant currentDisplayTime + Spent(k, tileDisplayDuration) == t0
        invariant currentTile == TileAfter(old(currentTile), numberOfTiles, k)
        invariant Steps(t0, tileDisplayDuration) == k + Steps(currentDisplayTime, tileDisplayDuration)
        invariant texture.offset == (if k == 0 then old(texture.offset)
                                     else TileOffset(currentTile, tilesHorizontal, tilesVertical))
        decreases Measure(currentDisplayTime, tileDisplayDuration)
      {
        MeasureDecreases(currentDisplayTime, tileDisplayDuration);
        assert Steps(currentDisplayTime, tileDisplayDuration)
            == 1 + Steps(currentDisplayTime - tileDisplayDuration, tileDisplayDuration);
        currentDisplayTime := currentDisplayTime - tileDisplayDuration;
        currentTile := currentTile + 1;
        if currentTile == numberOfTiles {
          currentTile := 0;
        }
        k := k + 1;
        UpdatePosition();
      }
      assert k == Steps(t0, tileDisplayDuration);
      if old(InRange()) {
        TileAfterStaysInRange(old(currentTile), numberOfTiles, k);
      }
    }
  }

  /** The sheet used for the bunnies (one column of five tiles, 10 ms each),
      started on tile 2 and advanced by 25 ms: two advances, 5 ms left over,
      tile 4 shown at offset (0, 4/5). */
  method AnimatorExample() returns (tile: nat, time: real, offset: Vec2)
    ensures tile == 4 && time == 5.0 && offset == Vec2(0.0, 0.8)
  {
    var texture := new Texture();
    var annie := new TextureAnimator(texture, 1, 5, 5, 10.0, 2);
    assert annie.InRange();
    annie.Update(25.0);
    StepsUnique(25.0, 10.0, 2);
    tile, time, offset := annie.currentTile, annie.currentDisplayTime, texture.offset;
  }
}
