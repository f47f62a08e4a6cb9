/** The camera of src/modules/game/game-renderer.ts: a smoothed camera position
    that chases a target, the viewport rectangle handed to the renderer each
    frame, and the screen-to-world translation. Drawing itself belongs to
    matter-js `Render` and is not part of this model; the renderer's viewport
    is recorded as the last bounds passed to `Render.lookAt`. */
module Rendering {
  import opened Vectors
  import opened Matter
  import opened Optional

  const CameraSpeed: real := 10.0

  type PlayerId = string

  /** The canvas element the renderer draws on. Other code may resize it. */
  class Canvas {
    var width: real
    var height: real

    constructor (width: real, height: real)
      ensures this.width == width && this.height == height
    {
      this.width := width;
      this.height := height;
    }
  }

  /** The part of the game the renderer consults: `game.getPlayer(id)`, a
      lookup that may find no player. Each player is represented by its body. */
  class PlayerRegistry {
    var players: map<PlayerId, Body>

    constructor (players: map<PlayerId, Body>)
      ensures this.players == players
    {
      this.players := players;
    }

    function GetPlayer(id: PlayerId): (r: Option<Body>)
      reads this
      ensures r.Some? <==> id in players
      ensures r.Some? ==> r.value == players[id]
    {
      if id in players then Some(players[id]) else None
    }
  }

  /** The distance between two reals. */
  function Dist(a: real, b: real): real {
    if a >= b then a - b else b - a
  }

  /** One camera update: the position moves toward the target by the frame's
      share `delta * CameraSpeed` of the way, clamped to [0, 1]. */
  function CameraStep(position: Vector, target: Vector, delta: real): (r: Vector)
    ensures delta >= 0.1 ==> r == target
    ensures delta <= 0.0 ==> r == position
    ensures position == target ==> r == target
  {
    LerpVectorClamped(position, target, delta * CameraSpeed)
  }

  /** One component of an interpolation with an amount in (0, 1] ends strictly
      closer to its target than it started, unless it started there. */
  lemma ApproachScalar(p: real, t: real, a: real)
    requires 0.0 < a <= 1.0
    requires p != t
    ensures Dist(p + (t - p) * a, t) < Dist(p, t)
  {
    var d := p - t;
    assert p + (t - p) * a - t == d * (1.0 - a);
    MulNonNegative(if d >= 0.0 then d else -d, 1.0 - a);
    if d > 0.0 {
      assert d - d * (1.0 - a) == d * a;
      assert d * a > 0.0;
    } else {
      assert -d + d * (1.0 - a) == -d * a;
      assert -d * a > 0.0;
    }
  }

  /** One component of an interpolation with an amount in [0, 1] keeps exactly
      the fraction `1 - a` of its distance to the target. */
  lemma ContractScalar(p: real, t: real, a: real)
    requires 0.0 <= a <= 1.0
    ensures Dist(p + (t - p) * a, t) == (1.0 - a) * Dist(p, t)
  {
    var d := p - t;
    assert p + (t - p) * a - t == d * (1.0 - a);
    if d >= 0.0 {
      MulNonNegative(d, 1.0 - a);
    } else {
      MulNonNegative(-d, 1.0 - a);
      assert t - (p + (t - p) * a) == (-d) * (1.0 - a);
    }
  }

  /** The share of the remaining distance one camera update keeps on each axis:
      `1 - clamp(delta * CameraSpeed, 0, 1)`. */
  function Retained(delta: real): (f: real)
    ensures 0.0 <= f <= 1.0
    ensures delta >= 0.1 ==> f == 0.0
    ensures 0.0 < delta ==> f < 1.0
  {
    1.0 - Clamp(delta * CameraSpeed, 0.0, 1.0)
  }

  /** One camera update multiplies each axis's offset from the target by
      `Retained(delta)`, a share in [0, 1]. */
  lemma CameraStepContracts(position: Vector, target: Vector, delta: real)
    ensures CameraStep(position, target, delta).x - target.x == Retained(delta) * (position.x - target.x)
    ensures CameraStep(position, target, delta).y - target.y == Retained(delta) * (position.y - target.y)
  {
    var a := Clamp(delta * CameraSpeed, 0.0, 1.0);
    assert CameraStep(position, target, delta) == LerpVector(position, target, a);
    assert position.x + (target.x - position.x) * a - target.x == (1.0 - a) * (position.x - target.x);
    assert position.y + (target.y - position.y) * a - target.y == (1.0 - a) * (position.y - target.y);
  }

  /** With the target held fixed, no component of the camera's distance to it
      grows in an update, and each component not yet on target strictly shrinks
      whenever the frame time is positive. */
  lemma CameraStepApproaches(position: Vector, target: Vector, delta: real)
    ensures Dist(CameraStep(position, target, delta).x, target.x) <= Dist(position.x, target.x)
    ensures Dist(CameraStep(position, target, delta).y, target.y) <= Dist(position.y, target.y)
    ensures 0.0 < delta && position.x != target.x ==>
      Dist(CameraStep(position, target, delta).x, target.x) < Dist(position.x, target.x)
    ensures 0.0 < delta && position.y != target.y ==>
      Dist(CameraStep(position, target, delta).y, target.y) < Dist(position.y, target.y)
  {
    if 0.0 < delta {
      var a := Clamp(delta * CameraSpeed, 0.0, 1.0);
      assert CameraStep(position, target, delta) == LerpVector(position, target, a);
      if position.x != target.x { ApproachScalar(position.x, target.x, a); }
      if position.y != target.y { ApproachScalar(position.y, target.y, a); }
    }
  }

  /** The camera position after one update per frame time in `deltas`, with the
      target held fixed. */
  function CameraAfter(position: Vector, target: Vector, deltas: seq<real>): Vector
    decreases |deltas|
  {
    if deltas == [] then position
    else CameraAfter(CameraStep(position, target, deltas[0]), target, deltas[1..])
  }

  /** Over any run of frames with a fixed target the camera never moves away
      from it on either axis; a camera on target stays there; and once some frame
      lasts a tenth of a second or more, the camera ends on the target. */
  lemma {:induction false} CameraConverges(position: Vector, target: Vector, deltas: seq<real>)
    ensures Dist(CameraAfter(position, target, deltas).x, target.x) <= Dist(position.x, target.x)
    ensures Dist(CameraAfter(position, target, deltas).y, target.y) <= Dist(position.y, target.y)
    ensures position == target ==> CameraAfter(position, target, deltas) == target
    ensures (exists i :: 0 <= i < |deltas| && deltas[i] >= 0.1) ==> CameraAfter(position, target, deltas) == target
    decreases |deltas|
  {
    if deltas != [] {
      var next := CameraStep(position, target, deltas[0]);
      CameraStepApproaches(position, target, deltas[0]);
      CameraConverges(next, target, deltas[1..]);
      if exists i :: 0 <= i < |deltas| && deltas[i] >= 0.1 {
        var i :| 0 <= i < |deltas| && deltas[i] >= 0.1;
        if i > 0 {
          assert deltas[1..][i - 1] >= 0.1;
        } else {
          CameraConverges(target, target, deltas[1..]);
        }
      }
    }
  }

  /** The share of the offset kept over a run of frames: the product of each
      frame's `Retained`. */
  function RetainedAfter(deltas: seq<real>): real
    decreases |deltas|
  {
    if deltas == [] then 1.0 else Retained(deltas[0]) * RetainedAfter(deltas[1..])
  }

  /** One axis of a camera update. */
  function AxisStep(p: real, t: real, delta: real): real {
    p + (t - p) * Clamp(delta * CameraSpeed, 0.0, 1.0)
  }

  /** One axis of the camera over a run of frames. */
  function AxisAfter(p: real, t: real, deltas: seq<real>): real
    decreases |deltas|
  {
    if deltas == [] then p else AxisAfter(AxisStep(p, t, deltas[0]), t, deltas[1..])
  }

  /** The camera's axes evolve independently, each by `AxisAfter`. */
  lemma {:induction false} CameraAfterAxes(position: Vector, target: Vector, deltas: seq<real>)
    ensures CameraAfter(position, target, deltas).x == AxisAfter(position.x, target.x, deltas)
    ensures CameraAfter(position, target, deltas).y == AxisAfter(position.y, target.y, deltas)
    decreases |deltas|
  {
    if deltas != [] {
      var next := CameraStep(position, target, deltas[0]);
      assert next == LerpVector(position, target, Clamp(deltas[0] * CameraSpeed, 0.0, 1.0));
      assert next.x == AxisStep(position.x, target.x, deltas[0]);
      assert next.y == AxisStep(position.y, target.y, deltas[0]);
      CameraAfterAxes(next, target, deltas[1..]);
    }
  }

  /** Along one axis, the offset from the target after a run of frames is the
      starting offset times the product of the frames' retained shares. */
  lemma {:induction false} AxisAfterOffset(p: real, t: real, deltas: seq<real>)
    ensures AxisAfter(p, t, deltas) - t == RetainedAfter(deltas) * (p - t)
    decreases |deltas|
  {
    if deltas != [] {
      var a := Clamp(deltas[0] * CameraSpeed, 0.0, 1.0);
      var next := AxisStep(p, t, deltas[0]);
      assert Retained(deltas[0]) == 1.0 - a;
      assert next - t == (1.0 - a) * (p - t);
      AxisAfterOffset(next, t, deltas[1..]);
      ChainShares(p - t, next - t, AxisAfter(p, t, deltas) - t, Retained(deltas[0]), RetainedAfter(deltas[1..]));
    }
  }

  /** Keeping the share `f` and then the share `g` keeps the share `f * g`. */
  lemma ChainShares(e0: real, e1: real, e2: real, f: real, g: real)
    requires e1 == f * e0 && e2 == g * e1
    ensures e2 == (f * g) * e0
  {
  }

  /** Over a run of frames with a fixed target, each axis's offset from the
      target is the starting offset times the product of the frames' retained
      shares. */
  lemma CameraAfterOffset(position: Vector, target: Vector, deltas: seq<real>)
    ensures CameraAfter(position, target, deltas).x - target.x == RetainedAfter(deltas) * (position.x - target.x)
    ensures CameraAfter(position, target, deltas).y - target.y == RetainedAfter(deltas) * (position.y - target.y)
  {
    CameraAfterAxes(position, target, deltas);
    AxisAfterOffset(position.x, target.x, deltas);
    AxisAfterOffset(position.y, target.y, deltas);
  }

  /** `b` raised to the power `n`. */
  function Pow(b: real, n: nat): real
    decreases n
  {
    if n == 0 then 1.0 else b * Pow(b, n - 1)
  }

  /** A run of frames that all have the same length. */
  predicate Steady(deltas: seq<real>, delta: real) {
    forall i :: 0 <= i < |deltas| ==> deltas[i] == delta
  }

  /** The retained share of a steady run is a power of one frame's share. */
  lemma {:induction false} RetainedAfterSteady(deltas: seq<real>, delta: real)
    requires Steady(deltas, delta)
    ensures RetainedAfter(deltas) == Pow(Retained(delta), |deltas|)
    decreases |deltas|
  {
    if deltas != [] {
      assert Steady(deltas[1..], delta) by {
        forall i | 0 <= i < |deltas[1..]| ensures deltas[1..][i] == delta {
          assert deltas[1..][i] == deltas[i + 1];
        }
      }
      RetainedAfterSteady(deltas[1..], delta);
    }
  }

  /** Powers of a share in [0, 1] stay in [0, 1] and shrink as `n` grows; a
      positive power of a share below 1 is below 1. */
  lemma {:induction false} PowShrinks(b: real, n: nat)
    requires 0.0 <= b <= 1.0
    ensures 0.0 <= Pow(b, n) <= 1.0
    ensures Pow(b, n + 1) <= Pow(b, n)
    ensures b < 1.0 && n > 0 ==> Pow(b, n) < 1.0
    decreases n
  {
    if n > 0 {
      PowShrinks(b, n - 1);
      MulNonNegative(b, Pow(b, n - 1));
      MulNonNegative(b, 1.0 - Pow(b, n - 1));
      assert b - Pow(b, n) == b * (1.0 - Pow(b, n - 1));
    }
    MulNonNegative(b, Pow(b, n));
    MulNonNegative(1.0 - b, Pow(b, n));
    assert Pow(b, n) - Pow(b, n + 1) == (1.0 - b) * Pow(b, n);
  }

  /** Geometric convergence: over `n` frames of one length `delta`, each axis's
      offset from a fixed target is multiplied by the share `Retained(delta)^n`,
      a share bounded by `SteadyShareBounds`. */
  lemma CameraConvergesGeometrically(position: Vector, target: Vector, deltas: seq<real>, delta: real)
    requires Steady(deltas, delta)
    ensures RetainedAfter(deltas) == Pow(Retained(delta), |deltas|)
    ensures CameraAfter(position, target, deltas).x - target.x == RetainedAfter(deltas) * (position.x - target.x)
    ensures CameraAfter(position, target, deltas).y - target.y == RetainedAfter(deltas) * (position.y - target.y)
  {
    CameraAfterOffset(position, target, deltas);
    RetainedAfterSteady(deltas, delta);
  }

  /** Over a steady run the camera keeps a share in [0, 1] of its offset, and a
      share below 1 once it has run at least one frame of positive length. */
  lemma SteadyShareBounds(deltas: seq<real>, delta: real)
    requires Steady(deltas, delta)
    ensures 0.0 <= RetainedAfter(deltas) <= 1.0
    ensures 0.0 < delta && |deltas| > 0 ==> RetainedAfter(deltas) < 1.0
  {
    RetainedAfterSteady(deltas, delta);
    PowShrinks(Retained(delta), |deltas|);
  }

  /** The viewport for a camera position: its top-left is the camera position
      and its extent is the canvas size. */
  function Viewport(cameraPosition: Vector, canvasSize: Vector): (b: Bounds)
    ensures b.min == cameraPosition
    ensures Sub(b.max, b.min) == canvasSize
  {
    Bounds(cameraPosition, Add(cameraPosition, canvasSize))
  }

  class GameRenderer {
    const game: PlayerRegistry
    const canvas: Canvas
    var cameraPosition: Vector
    var cameraTarget: Vector
    /** The bounds most recently passed to `Render.lookAt`, if any. */
    var viewport: Option<Bounds>

    /** Both camera vectors start at the origin; nothing has been looked at yet. */
    constructor (game: PlayerRegistry, canvas: Canvas)
      ensures this.game == game && this.canvas == canvas
      ensures cameraPosition == Origin && cameraTarget == Origin
      ensures viewport == None
    {
      this.game := game;
      this.canvas := canvas;
      cameraPosition := Origin;
      cameraTarget := Origin;
      viewport := None;
    }

    /** The `canvasSize` getter, read from the canvas each time. */
    function CanvasSize(): (r: Vector)
      reads this, canvas
      ensures r.x == canvas.width && r.y == canvas.height
    {
      VectorFromSize(Size(canvas.width, canvas.height))
    }

    /** `update(delta)`: move the camera toward its target and look at the
        canvas-sized rectangle whose top-left is the new camera position. */
    method Update(delta: real)
      modifies this
      ensures cameraPosition == CameraStep(old(cameraPosition), cameraTarget, delta)
      ensures cameraTarget == old(cameraTarget)
      ensures viewport == Some(Viewport(cameraPosition, CanvasSize()))
      ensures delta >= 0.1 ==> cameraPosition == cameraTarget
      ensures Dist(cameraPosition.x, cameraTarget.x) <= Dist(old(cameraPosition).x, cameraTarget.x)
      ensures Dist(cameraPosition.y, cameraTarget.y) <= Dist(old(cameraPosition).y, cameraTarget.y)
      ensures ToWorldPosition(Origin) == viewport.value.min
      ensures ToWorldPosition(CanvasSize()) == viewport.value.max
    {
      CameraStepApproaches(cameraPosition, cameraTarget, delta);
      cameraPosition := LerpVectorClamped(cameraPosition, cameraTarget, delta * CameraSpeed);
      viewport := Some(Bounds(cameraPosition, Add(cameraPosition, CanvasSize())));
    }

    /** `lookAtPlayer(playerId)`: an unknown id changes nothing; a known one sets
        the target so that the canvas would be centred on the player. */
    method LookAtPlayer(playerId: PlayerId)
      modifies this
      ensures game.GetPlayer(playerId).None? ==> unchanged(this)
      ensures game.GetPlayer(playerId).Some? ==>
        && cameraTarget == Sub(game.GetPlayer(playerId).value.position, Div(CanvasSize(), 2.0))
        && Add(cameraTarget, Div(CanvasSize(), 2.0)) == game.GetPlayer(playerId).value.position
        && cameraPosition == old(cameraPosition)
        && viewport == old(viewport)
    {
      var player := game.GetPlayer(playerId);
      if player.None? {
        return;
      }
      cameraTarget := Sub(player.value.position, Div(CanvasSize(), 2.0));
    }

    /** `toWorldPosition(screenPosition)`: a pure translation by the camera
        position, undone by subtracting it. */
    function ToWorldPosition(screenPosition: Vector): (r: Vector)
      reads this
      ensures Sub(r, cameraPosition) == screenPosition
    {
      Add(screenPosition, cameraPosition)
    }
  }

  /** Screen-to-world translation keeps differences: two screen points are as
      far apart in the world as on the screen. */
  lemma ToWorldPreservesOffsets(renderer: GameRenderer, s: Vector, s': Vector)
    ensures Sub(renderer.ToWorldPosition(s), renderer.ToWorldPosition(s')) == Sub(s, s')
  {
  }
}
