/** The entities of the demo and the registry that drives them: every
    entity registers itself when constructed, and one tick of the update
    loop runs each entity's `update` once, in registration order. */
module Scene {
  import opened SpriteSheet
  import opened Animation
  import opened Bounce

  /** A Rectangle or a Bunny. Both carry the same bounce state and the
      same `update`; a bunny also owns a sprite-sheet animator. The scene
      graph object itself (mesh or sprite) is not modelled beyond the
      transform fields `update` touches. */
  class Entity {
    var x: real
    var y: real
    var rotationZ: real
    var delta: real
    /** The bunny's animator (`annie`); null for a rectangle. */
    const annie: TextureAnimator?

    function State(): Motion
      reads this
    {
      Motion(x, y, rotationZ, delta)
    }

    /** `new Rectangle(app, w, h)`: registers itself, then takes its random
        placement. */
    constructor Rectangle(app: App, randomY: real, randomX: real)
      requires 0.0 <= randomY && 0.0 <= randomX
      modifies app`entities
      ensures State() == Placement(randomY, randomX) && annie == null
      ensures app.entities == old(app.entities) + [this]
      ensures old(app.Distinct()) ==> app.Distinct()
    {
      annie := null;
      x, y, rotationZ, delta := 0.0, 0.0, 0.0, Speed;
      new;
      app.Register(this);
      var placed := Placement(randomY, randomX);
      y := placed.y;
      x := placed.x;
    }

    /** `new Bunny(app, bunnyType)`: registers itself, builds its animator
        over a one-column sheet of five tiles shown 10 ms each, starting on
        tile `bunnyType` unchecked, then takes its random placement. */
    constructor Bunny(app: App, bunnyType: nat, randomY: real, randomX: real)
      requires 0.0 <= randomY && 0.0 <= randomX
      modifies app`entities
      ensures State() == Placement(randomY, randomX)
      ensures annie != null && fresh(annie) && fresh(annie.texture)
      ensures annie.tilesHorizontal == 1 && annie.tilesVertical == 5
      ensures annie.numberOfTiles == 5 && annie.tileDisplayDuration == 10.0
      ensures annie.currentTile == bunnyType && annie.currentDisplayTime == 0.0
      ensures annie.texture.offset == TileOffset(bunnyType, 1, 5)
      ensures annie.texture.repeat == Vec2(1.0, 0.2)
      ensures app.entities == old(app.entities) + [this]
      ensures old(app.Distinct()) ==> app.Distinct()
    {
      var runnerTexture := new Texture();
      annie := new TextureAnimator(runnerTexture, 1, 5, 5, 10.0, bunnyType);
      x, y, rotationZ, delta := 0.0, 0.0, 0.0, Speed;
      new;
      app.Register(this);
      var placed := Placement(randomY, randomX);
      y := placed.y;
      x := placed.x;
    }

    /** The bounce step, in place. A bunny's animator is not advanced here. */
    method Update()
      modifies this`x, this`delta, this`rotationZ
      ensures State() == BounceStep(old(State()))
    {
      if x > Bound {
        delta := delta * -1.0;
      }
      if x < -Bound {
        delta := delta * -1.0;
      }
      rotationZ := rotationZ + Spin;
      x := x + delta;
    }
  }

  /** The registry part of the application object. */
  class App {
    var entities: seq<Entity>

    constructor ()
      ensures entities == []
    {
      entities := [];
    }

    /** No entity is registered twice; the constructors keep this, since
        each registers a new object. */
    predicate Distinct()
      reads this
    {
      forall i, j :: 0 <= i < j < |entities| ==> entities[i] != entities[j]
    }

    /** Appends the entity; no duplicate check, as in the source. */
    method Register(entity: Entity)
      modifies this`entities
      ensures entities == old(entities) + [entity]
      ensures Distinct() <==> old(Distinct()) && entity !in old(entities)
    {
      ghost var before := entities;
      entities := entities + [entity];
      if entity in before {
        var i :| 0 <= i < |before| && before[i] == entity;
        assert entities[i] == entities[|before|];
      } else {
        forall i, j | 0 <= i < j < |before| && Distinct()
          ensures before[i] != before[j]
        {
          assert before[i] == entities[i] && before[j] == entities[j];
        }
        forall i, j | 0 <= i < j < |entities| && old(Distinct())
          ensures entities[i] != entities[j]
        {
          assert entities[i] == before[i];
          if j < |before| {
            assert entities[j] == before[j];
          }
        }
      }
    }

    /** One pass of the update loop: each registered entity's `update` runs
        once, in index order, and the registry itself is left as it was.
        Each update touches only its own entity, so for distinct entities the
        order is not observable in the final state. */
    method Tick()
      requires Distinct()
      modifies entities
      ensures entities == old(entities)
      ensures forall i :: 0 <= i < |entities| ==>
        entities[i].State() == BounceStep(old(entities[i].State()))
      ensures forall i :: 0 <= i < |entities| && InBounds(old(entities[i].State())) ==>
        InBounds(entities[i].State())
    {
      for n := 0 to |entities|
        invariant forall i :: 0 <= i < n ==>
          entities[i].State() == BounceStep(old(entities[i].State()))
        invariant forall i :: n <= i < |entities| ==>
          entities[i].State() == old(entities[i].State())
      {
        entities[n].Update();
      }
      forall i | 0 <= i < |entities| && InBounds(old(entities[i].State()))
        ensures InBounds(entities[i].State())
      {
        BounceStepKeepsBounds(old(entities[i].State()));
      }
    }
  }

  /** Three rectangles registered in turn at x = -60, 0 and 59; one tick
      moves each by exactly one step: to -59.8, 0.2 and 59.2. */
  method RegistryExample() returns (xs: seq<real>)
    ensures xs == [-59.8, 0.2, 59.2]
  {
    assert JsRem(0.0, 120.0) == 0.0 && JsRem(60.0, 120.0) == 60.0 && JsRem(119.0, 120.0) == 119.0;
    var app := new App();
    var a := new Entity.Rectangle(app, 0.0, 0.0);
    var b := new Entity.Rectangle(app, 0.0, 0.06);
    var c := new Entity.Rectangle(app, 0.0, 0.119);
    assert app.entities == [a, b, c];
    assert a.State() == Motion(-60.0, -30.0, 0.0, 0.2);
    assert b.State() == Motion(0.0, -30.0, 0.0, 0.2);
    assert c.State() == Motion(59.0, -30.0, 0.0, 0.2);
    app.Tick();
    assert app.entities[0] == a && app.entities[1] == b && app.entities[2] == c;
    assert a.State() == BounceStep(Motion(-60.0, -30.0, 0.0, 0.2));
    assert b.State() == BounceStep(Motion(0.0, -30.0, 0.0, 0.2));
    assert c.State() == BounceStep(Motion(59.0, -30.0, 0.0, 0.2));
    xs := [a.x, b.x, c.x];
  }

  /** `Math.round`: the nearest integer, halves rounded up. */
  function JsRound(v: real): (r: int)
    ensures r as real - 0.5 <= v < r as real + 0.5
  {
    (v + 0.5).Floor
  }

  /** The bunny's starting tile as src/index.ts:280 computes it,
      `Math.round(Math.random() * 10 % 5)`. The remainder lies in [0, 5), so
      rounding it can give 5. */
  function BunnyTileAsWritten(random: real): (t: nat)
    requires 0.0 <= random < 1.0
    ensures t <= 5
  {
    JsRound(JsRem(random * 10.0, 5.0))
  }

  /** A draw of 0.45 yields tile 5, which equals the sheet's five tiles; an
      animator started there never meets its wrap test, so its tile index
      leaves the range of the sheet for good and its offset grows without
      bound (texture wrapping then samples the sheet's rows over again). */
  lemma BunnyTileAsWrittenOverflows(k: nat)
    ensures BunnyTileAsWritten(0.45) == 5
    ensures TileAfter(BunnyTileAsWritten(0.45), 5, k) == 5 + k
    ensures TileOffset(TileAfter(BunnyTileAsWritten(0.45), 5, k), 1, 5).y >= 1.0
  {
    assert JsRem(4.5, 5.0) == 4.5;
    OutOfRangeNeverWraps(5, 5, k);
  }

  /** The intended starting tile: `Math.floor(Math.random() * 10 % 5)`,
      always one of the five tiles. */
  function BunnyTile(random: real): (t: nat)
    requires 0.0 <= random < 1.0
    ensures t < 5
  {
    JsRem(random * 10.0, 5.0).Floor
  }

  /** A bunny's animator as `new Bunny` leaves it: the one-column sheet of
      five tiles shown 10 ms each, on `tile` with no time spent, publishing
      that tile's offset with a one-tile repeat. */
  predicate BunnyAnimator(a: TextureAnimator?, tile: nat)
    reads a, if a != null then {a.texture} else {}
  {
    && a != null
    && a.tilesHorizontal == 1 && a.tilesVertical == 5
    && a.numberOfTiles == 5 && a.tileDisplayDuration == 10.0
    && a.currentTile == tile && a.currentDisplayTime == 0.0
    && a.texture.offset == TileOffset(tile, 1, 5)
    && a.texture.repeat == Vec2(1.0, 0.2)
  }

  /** The three random draws one bunny consumes, in the order the program
      makes them: the starting tile, then y, then x. */
  datatype BunnyDraw = BunnyDraw(tile: real, y: real, x: real)

  /** The start-up loop as written: one bunny per draw, registered in draw
      order, each starting on `BunnyTileAsWritten` of its first draw, which
      may be the out-of-range tile 5. */
  method Populate(app: App, draws: seq<BunnyDraw>) returns (ghost bunnies: seq<Entity>)
    requires forall i :: 0 <= i < |draws| ==>
      0.0 <= draws[i].tile < 1.0 && 0.0 <= draws[i].y && 0.0 <= draws[i].x
    modifies app`entities
    ensures app.entities == old(app.entities) + bunnies
    ensures |bunnies| == |draws|
    ensures forall i :: 0 <= i < |bunnies| ==>
      && fresh(bunnies[i])
      && BunnyAnimator(bunnies[i].annie, BunnyTileAsWritten(draws[i].tile))
      && fresh(bunnies[i].annie) && fresh(bunnies[i].annie.texture)
      && (bunnies[i].annie.InRange() <==> BunnyTileAsWritten(draws[i].tile) < 5)
      && bunnies[i].State() == Placement(draws[i].y, draws[i].x)
    ensures old(app.Distinct()) ==> app.Distinct()
  {
    bunnies := [];
    for n := 0 to |draws|
      invariant app.entities == old(app.entities) + bunnies
      invariant |bunnies| == n
      invariant forall i :: 0 <= i < n ==>
        && fresh(bunnies[i])
        && BunnyAnimator(bunnies[i].annie, BunnyTileAsWritten(draws[i].tile))
        && fresh(bunnies[i].annie) && fresh(bunnies[i].annie.texture)
        && (bunnies[i].annie.InRange() <==> BunnyTileAsWritten(draws[i].tile) < 5)
        && bunnies[i].State() == Placement(draws[i].y, draws[i].x)
      invariant old(app.Distinct()) ==> app.Distinct()
    {
      var d := draws[n];
      var bunny := new Entity.Bunny(app, BunnyTileAsWritten(d.tile), d.y, d.x);
      bunnies := bunnies + [bunny];
    }
  }

  /** The start-up loop with the corrected starting tile: every bunny's
      animator starts on one of the sheet's five tiles. */
  method PopulateCorrected(app: App, draws: seq<BunnyDraw>) returns (ghost bunnies: seq<Entity>)
    requires forall i :: 0 <= i < |draws| ==>
      0.0 <= draws[i].tile < 1.0 && 0.0 <= draws[i].y && 0.0 <= draws[i].x
    modifies app`entities
    ensures app.entities == old(app.entities) + bunnies
    ensures |bunnies| == |draws|
    ensures forall i :: 0 <= i < |bunnies| ==>
      && fresh(bunnies[i])
      && BunnyAnimator(bunnies[i].annie, BunnyTile(draws[i].tile))
      && fresh(bunnies[i].annie) && fresh(bunnies[i].annie.texture)
      && bunnies[i].annie.InRange()
      && bunnies[i].State() == Placement(draws[i].y, draws[i].x)
    ensures old(app.Distinct()) ==> app.Distinct()
  {
    bunnies := [];
    for n := 0 to |draws|
      invariant app.entities == old(app.entities) + bunnies
      invariant |bunnies| == n
      invariant forall i :: 0 <= i < n ==>
        && fresh(bunnies[i])
        && BunnyAnimator(bunnies[i].annie, BunnyTile(draws[i].tile))
        && fresh(bunnies[i].annie) && fresh(bunnies[i].annie.texture)
        && bunnies[i].annie.InRange()
        && bunnies[i].State() == Placement(draws[i].y, draws[i].x)
      invariant old(app.Distinct()) ==> app.Distinct()
    {
      var d := draws[n];
      var bunny := new Entity.Bunny(app, BunnyTile(d.tile), d.y, d.x);
      bunnies := bunnies + [bunny];
    }
  }

  /** The draw 0.45 through both loops: as written the bunny starts on tile
      5, outside the sheet; corrected it starts on tile 4 and its animator
      can be advanced, 25 ms taking it round to tile 1. */
  method PopulateExample() returns (asWritten: nat, corrected: nat, advanced: nat)
    ensures asWritten == 5 && corrected == 4 && advanced == 1
  {
    assert JsRem(4.5, 5.0) == 4.5;
    var app := new App();
    var written := Populate(app, [BunnyDraw(0.45, 0.0, 0.0)]);
    var b := app.entities[0];
    assert !b.annie.InRange();
    asWritten := b.annie.currentTile;
    var fixedApp := new App();
    var fixedBunnies := PopulateCorrected(fixedApp, [BunnyDraw(0.45, 0.0, 0.0)]);
    var c := fixedApp.entities[0];
    corrected := c.annie.currentTile;
    c.annie.Update(25.0);
    StepsUnique(25.0, 10.0, 2);
    advanced := c.annie.currentTile;
  }
}
