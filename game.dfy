/** The game of src/modules/game/game.ts: one player, a field of boxes spawned
    at random, and the per-frame update that moves the player and wraps every
    box back into the world. The matter-js engine and runner are not part of
    this model. */
module Games {
  import opened Vectors
  import opened Matter
  import opened Players

  const BoxSize: real := 100.0
  const BoxCount: nat := 150

  /** One axis of the box wrap: a coordinate below zero gains one world extent,
      then a coordinate above the extent loses one. The test is strict, so a
      coordinate equal to the extent stays where it is. */
  function WrapAxis(c: real, extent: real): (r: real)
    ensures c < 0.0 ==> r == c + extent
    ensures 0.0 <= c <= extent ==> r == c
    ensures 0.0 <= c && extent < c ==> r == c - extent
  {
    var raised := if c < 0.0 then c + extent else c;
    if raised > extent then raised - extent else raised
  }

  /** One step of wrapping is enough exactly for coordinates within one extent
      of the world: the result lies in `[0, extent]` if and only if the input
      lies in `[-extent, 2 * extent]`. */
  lemma WrapAxisSingleStep(c: real, extent: real)
    requires 0.0 < extent
    ensures 0.0 <= WrapAxis(c, extent) <= extent <==> -extent <= c <= 2.0 * extent
  {
  }

  /** The box position correction of `clampBoxesToWorld`, applied to each axis
      on its own. */
  function WrapPosition(p: Vector, worldSize: Vector): (r: Vector)
    ensures Within(p, Origin, worldSize) ==> r == p
    ensures r.x == WrapAxis(p.x, worldSize.x) && r.y == WrapAxis(p.y, worldSize.y)
  {
    Vector(WrapAxis(p.x, worldSize.x), WrapAxis(p.y, worldSize.y))
  }

  /** A wrapped position lies in the world if and only if the position was
      within one world extent of it on both axes; a position already in the world
      is left where it is, so wrapping again changes nothing. */
  lemma WrapPositionInWorld(p: Vector, worldSize: Vector)
    requires 0.0 < worldSize.x && 0.0 < worldSize.y
    ensures Within(WrapPosition(p, worldSize), Origin, worldSize)
      <==> Within(p, Sub(Origin, worldSize), Mult(worldSize, 2.0))
    ensures Within(p, Sub(Origin, worldSize), Mult(worldSize, 2.0)) ==>
      WrapPosition(WrapPosition(p, worldSize), worldSize) == WrapPosition(p, worldSize)
  {
    WrapAxisSingleStep(p.x, worldSize.x);
    WrapAxisSingleStep(p.y, worldSize.y);
  }

  /** A box at (4990, 2500) moving 20 to the right in a 5000-wide world comes
      back in at (10, 2500). */
  lemma WrapAcrossRightEdge()
    ensures WrapPosition(Add(Vector(4990.0, 2500.0), Vector(20.0, 0.0)), Vector(5000.0, 5000.0))
      == Vector(10.0, 2500.0)
  {
  }

  /** Where a box spawns for the random draws `rx` and `ry`. */
  function BoxSpawnPosition(rx: real, ry: real, worldSize: Vector): (r: Vector)
    ensures 0.0 <= rx < 1.0 && 0.0 < worldSize.x ==> 0.0 <= r.x < worldSize.x
    ensures 0.0 <= ry < 1.0 && 0.0 < worldSize.y ==> 0.0 <= r.y < worldSize.y
  {
    ScaleBelow(rx, worldSize.x);
    ScaleBelow(ry, worldSize.y);
    Vector(rx * worldSize.x, ry * worldSize.y)
  }

  /** A draw in [0, 1) scales a positive extent to a point inside it. */
  lemma ScaleBelow(r: real, extent: real)
    ensures 0.0 <= r < 1.0 && 0.0 < extent ==> 0.0 <= r * extent < extent
  {
    if 0.0 <= r < 1.0 && 0.0 < extent {
      MulNonNegative(r, extent);
      assert extent - r * extent == (1.0 - r) * extent;
    }
  }

  /** The box speed `random * 2 + 1`: it lies in [1, 3) for a draw in [0, 1). */
  function BoxSpeed(r: real): (s: real)
    ensures 0.0 <= r < 1.0 ==> 1.0 <= s < 3.0
  {
    r * 2.0 + 1.0
  }

  /** Every pair of random draws lies in [0, 1). */
  predicate DrawsInUnit(draws: seq<(real, real)>) {
    forall j :: 0 <= j < |draws| ==> 0.0 <= draws[j].0 < 1.0 && 0.0 <= draws[j].1 < 1.0
  }

  /** A point of `[0, width) x [0, height)`. */
  predicate InHalfOpenWorld(p: Vector, worldSize: Vector) {
    0.0 <= p.x < worldSize.x && 0.0 <= p.y < worldSize.y
  }

  /** `createBoxes`: 150 square boxes, box `i` at the spawn position of the
      `i`-th pair of random draws, all distinct and at rest. */
  method CreateBoxes(worldSize: Vector, draws: seq<(real, real)>) returns (boxes: seq<Body>)
    requires |draws| == BoxCount
    ensures |boxes| == BoxCount && Distinct(boxes)
    ensures forall i :: 0 <= i < |boxes| ==> fresh(boxes[i])
    ensures forall i :: 0 <= i < |boxes| ==>
      && boxes[i].position == BoxSpawnPosition(draws[i].0, draws[i].1, worldSize)
      && boxes[i].velocity == Origin
      && boxes[i].shape == Rectangle(BoxSize, BoxSize)
      && !boxes[i].isSensor
    ensures 0.0 < worldSize.x && 0.0 < worldSize.y && DrawsInUnit(draws) ==>
      forall i :: 0 <= i < |boxes| ==> InHalfOpenWorld(boxes[i].position, worldSize)
  {
    boxes := [];
    for i := 0 to BoxCount
      invariant |boxes| == i && Distinct(boxes)
      invariant forall j :: 0 <= j < i ==> fresh(boxes[j])
      invariant forall j :: 0 <= j < i ==>
        && boxes[j].position == BoxSpawnPosition(draws[j].0, draws[j].1, worldSize)
        && boxes[j].velocity == Origin
        && boxes[j].shape == Rectangle(BoxSize, BoxSize)
        && !boxes[j].isSensor
    {
      var x := draws[i].0 * worldSize.x;
      var y := draws[i].1 * worldSize.y;
      var box := new Body(Vector(x, y), Rectangle(BoxSize, BoxSize), false);
      boxes := boxes + [box];
    }
  }

  /** `randomizeBoxVelocities`: box `i` gets the unit vector `directions[i]` (the
      cosine and sine of its random angle) scaled by the speed for its draw. */
  method RandomizeVelocities(boxes: seq<Body>, directions: seq<Vector>, speedDraws: seq<real>)
    requires Distinct(boxes)
    requires |directions| == |boxes| && |speedDraws| == |boxes|
    modifies set b | b in boxes
    ensures forall i :: 0 <= i < |boxes| ==>
      && boxes[i].velocity == Mult(directions[i], BoxSpeed(speedDraws[i]))
      && boxes[i].position == old(boxes[i].position)
  {
    for i := 0 to |boxes|
      invariant forall j :: 0 <= j < i ==> boxes[j].velocity == Mult(directions[j], BoxSpeed(speedDraws[j]))
      invariant forall j :: i <= j < |boxes| ==> boxes[j].velocity == old(boxes[j].velocity)
      invariant forall j :: 0 <= j < |boxes| ==> boxes[j].position == old(boxes[j].position)
    {
      var speed := speedDraws[i] * 2.0 + 1.0;
      boxes[i].velocity := Vector(directions[i].x * speed, directions[i].y * speed);
    }
  }

  /** The box loop of `clampBoxesToWorld`: each box's position is corrected
      axis by axis, and nothing else about any box changes. */
  method WrapBoxes(boxes: seq<Body>, worldSize: Vector)
    requires Distinct(boxes)
    modifies set b | b in boxes
    ensures forall i :: 0 <= i < |boxes| ==>
      && boxes[i].position == WrapPosition(old(boxes[i].position), worldSize)
      && boxes[i].velocity == old(boxes[i].velocity)
  {
    for i := 0 to |boxes|
      invariant forall j :: 0 <= j < i ==> boxes[j].position == WrapPosition(old(boxes[j].position), worldSize)
      invariant forall j :: i <= j < |boxes| ==> boxes[j].position == old(boxes[j].position)
      invariant forall j :: 0 <= j < |boxes| ==> boxes[j].velocity == old(boxes[j].velocity)
    {
      var box := boxes[i];
      var x := box.position.x;
      var y := box.position.y;
      if x < 0.0 { x := x + worldSize.x; }
      if x > worldSize.x { x := x - worldSize.x; }
      if y < 0.0 { y := y + worldSize.y; }
      if y > worldSize.y { y := y - worldSize.y; }
      box.position := Vector(x, y);
    }
  }

  class Game {
    /** The world bounds, from the project's constants module. */
    const worldSize: Vector
    const player: Player
    const boxes: seq<Body>

    /** The player's two bodies and the boxes are all different bodies, and
        there are always 150 boxes. */
    ghost predicate Valid()
      reads this, player
    {
      && player.Valid()
      && player.worldSize == worldSize
      && Distinct(boxes)
      && |boxes| == BoxCount
      && player.playerBody !in boxes
      && player.playerCursorBody !in boxes
    }

    /** Builds the player from its spawn draws, the boxes from theirs, and then
        randomizes the box velocities. */
    constructor (worldSize: Vector, playerDraw: (real, real), boxDraws: seq<(real, real)>,
                 directions: seq<Vector>, speedDraws: seq<real>)
      requires |boxDraws| == BoxCount && |directions| == BoxCount && |speedDraws| == BoxCount
      ensures Valid() && this.worldSize == worldSize
      ensures fresh(player) && fresh(player.playerBody) && fresh(player.playerCursorBody)
      ensures forall i :: 0 <= i < |boxes| ==> fresh(boxes[i])
      ensures player.playerBody.position == Vector(playerDraw.0 * worldSize.x, playerDraw.1 * worldSize.y)
      ensures forall i :: 0 <= i < |boxes| ==>
        && boxes[i].position == BoxSpawnPosition(boxDraws[i].0, boxDraws[i].1, worldSize)
        && boxes[i].velocity == Mult(directions[i], BoxSpeed(speedDraws[i]))
        && boxes[i].shape == Rectangle(BoxSize, BoxSize)
    {
      this.worldSize := worldSize;
      var p := new Player(worldSize, playerDraw.0, playerDraw.1);
      var bs := CreateBoxes(worldSize, boxDraws);
      player := p;
      boxes := bs;
      new;
      RandomizeVelocities(boxes, directions, speedDraws);
    }

    /** `update(delta)`: move the player, then wrap the boxes. */
    method Update(delta: real, pressed: set<string>)
      requires Valid()
      modifies player.playerBody, set b | b in boxes
      ensures Valid()
      ensures player.playerBody.velocity == LerpVectorClamped(old(player.playerBody.velocity),
        TargetVelocity("KeyA" in pressed, "KeyD" in pressed, "KeyW" in pressed, "KeyS" in pressed),
        delta * PlayerMovementSmoothing)
      ensures player.playerBody.position == ClampVector(old(player.playerBody.position), Origin, worldSize)
      ensures forall i :: 0 <= i < |boxes| ==>
        && boxes[i].position == WrapPosition(old(boxes[i].position), worldSize)
        && boxes[i].velocity == old(boxes[i].velocity)
      ensures unchanged(player.playerCursorBody)
    {
      player.Move(delta, pressed);
      ClampBoxesToWorld();
    }

    /** `clampBoxesToWorld()`, which wraps rather than clamps. */
    method ClampBoxesToWorld()
      requires Valid()
      modifies set b | b in boxes
      ensures forall i :: 0 <= i < |boxes| ==>
        && boxes[i].position == WrapPosition(old(boxes[i].position), worldSize)
        && boxes[i].velocity == old(boxes[i].velocity)
      ensures 0.0 < worldSize.x && 0.0 < worldSize.y ==> forall i :: 0 <= i < |boxes| ==>
        Within(old(boxes[i].position), Sub(Origin, worldSize), Mult(worldSize, 2.0)) ==>
        Within(boxes[i].position, Origin, worldSize)
    {
      WrapBoxes(boxes, worldSize);
      forall i | 0 <= i < |boxes| && 0.0 < worldSize.x && 0.0 < worldSize.y
        ensures Within(old(boxes[i].position), Sub(Origin, worldSize), Mult(worldSize, 2.0)) ==>
          Within(boxes[i].position, Origin, worldSize)
      {
        WrapPositionInWorld(old(boxes[i].position), worldSize);
      }
    }
  }
}
