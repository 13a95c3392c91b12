/** The goomba enemy: it walks in one direction, turns round after covering more
    than five units or on a collision with a dynamic body, and is squashed (and later
    removed) by the player. Its physics body is reduced to its position (`px`,
    `py`) and velocity (`vx`, `vy`), which the physics engine changes between
    callbacks. */
module Goomba {
  import Player

  /** The texture shown: nothing yet, or an index into the three goomba images. */
  datatype Texture = NoTexture | Image(index: nat)

  const TEXTURE_NAMES: seq<string> := ["goomba_1.png", "goomba_2.png", "goomba_3.png"]
  const FOLDER: string := "./MarioAssets/"
  const SQUASHED_IMAGE: nat := 2

  const WALK_SPEED: real := 4.0
  /** The vertical kick given to a goomba that stopped moving. */
  const HOP_SPEED: real := 2.0
  /** The distance after which a goomba turns round. */
  const PATROL_LENGTH: real := 5.0
  /** How long a goomba stays squashed, in timer units. */
  const SQUASH_DURATION: real := 5.0
  const SQUASH_STEP: real := 0.01
  const BLINK_STEP: real := 0.05
  /** The vertical velocity a player gets from stomping a goomba. */
  const BOUNCE_SPEED: real := 10.0

  /** The direction drawn from `random.randint(0, 1)`. */
  function InitialDirection(draw: int): (d: int)
    ensures d == 1 || d == -1
    ensures d == 1 <==> draw == 0
  {
    if draw == 0 then 1 else -1
  }

  /** The walking state `fixedUpdate` reads and changes. */
  datatype Walk = Walk(direction: int, dx: real, lastx: real, vx: real, vy: real)

  /** `fixedUpdate` for a goomba now at horizontal position `x`: a goomba that has not
      moved hops, the distance covered accumulates, a walking goomba walks on at
      speed 4 in its direction, and after more than 5 units it turns round. A
      squashed goomba keeps its velocity and its direction and covers no distance. */
  function Patrol(w: Walk, x: real, squashed: bool): (r: Walk)
    ensures r.lastx == x
    ensures (w.direction == 1 || w.direction == -1) ==> (r.direction == 1 || r.direction == -1)
    ensures 0.0 <= w.dx ==> 0.0 <= r.dx <= PATROL_LENGTH
    ensures squashed ==> r.direction == w.direction && r.dx == 0.0 && r.vx == w.vx && r.vy == w.vy
    ensures !squashed ==> r.vx == w.direction as real * WALK_SPEED
    ensures !squashed ==> r.vy == if Player.Abs(x - w.lastx) < 0.01 then HOP_SPEED else w.vy
    ensures !squashed ==>
      r.dx == if w.dx + Player.Abs(x - w.lastx) > PATROL_LENGTH then 0.0 else w.dx + Player.Abs(x - w.lastx)
    ensures r.direction == -w.direction || r.direction == w.direction
    ensures w.direction != 0 ==>
      (r.direction == -w.direction <==> !squashed && w.dx + Player.Abs(x - w.lastx) > PATROL_LENGTH)
  {
    var hop := if Player.Abs(x - w.lastx) < 0.01 && !squashed then HOP_SPEED else w.vy;
    var dx := w.dx + Player.Abs(x - w.lastx);
    var vx := if !squashed then w.direction as real * WALK_SPEED else w.vx;
    var dx' := if !squashed then dx else 0.0;
    if dx' > PATROL_LENGTH then Walk(-w.direction, 0.0, x, vx, hop)
    else Walk(w.direction, dx', x, vx, hop)
  }

  /** The walk frame step of `update`: after the timer passes 1 the frame toggles. */
  function Blink(frame: nat, timing: real): (r: (nat, real))
    ensures frame <= 1 ==> r.0 <= 1
    ensures timing > 1.0 && frame <= 1 ==> r.0 == 1 - frame
    ensures timing <= 1.0 ==> r.0 == frame
    ensures r.1 == if timing > 1.0 then BLINK_STEP else timing + BLINK_STEP
  {
    var f := if timing > 1.0 then (if frame == 0 then 1 else 0) else frame;
    var t := if timing > 1.0 then 0.0 else timing;
    (f, t + BLINK_STEP)
  }

  /** The squash timer step of `update`: a squashed goomba's timer advances by 0.01,
      and once it passes 5 the goomba recovers with the timer reset. */
  function SquashStep(squashed: bool, time: real): (r: (bool, real))
    ensures !squashed ==> r == (squashed, time)
    ensures squashed && time + SQUASH_STEP > SQUASH_DURATION ==> r == (false, 0.0)
    ensures squashed && time + SQUASH_STEP <= SQUASH_DURATION ==> r == (true, time + SQUASH_STEP)
    ensures 0.0 <= time <= SQUASH_DURATION ==> 0.0 <= r.1 <= SQUASH_DURATION
  {
    if squashed then
      var t := time + SQUASH_STEP;
      if t > SQUASH_DURATION then (false, 0.0) else (true, t)
    else (squashed, time)
  }

  /** The squash state after `n` updates. */
  function SquashAfter(squashed: bool, time: real, n: nat): (bool, real)
  {
    if n == 0 then (squashed, time)
    else
      var s := SquashAfter(squashed, time, n - 1);
      SquashStep(s.0, s.1)
  }

  /** A freshly squashed goomba stays squashed for exactly 500 updates, its timer
      counting up by 0.01, and recovers at the 501st. */
  lemma {:induction false} SquashLasts(n: nat)
    requires n <= 501
    ensures n <= 500 ==> SquashAfter(true, 0.0, n) == (true, n as real * SQUASH_STEP)
    ensures n == 501 ==> SquashAfter(true, 0.0, n) == (false, 0.0)
  {
    if n > 0 {
      SquashLasts(n - 1);
    }
  }

  /** The paths of the three images, in order. */
  function Paths(): seq<string> {
    seq(|TEXTURE_NAMES|, k requires 0 <= k < |TEXTURE_NAMES| => FOLDER + TEXTURE_NAMES[k])
  }

  /** The player a contact touched, as a set: empty when the other body is not the player. */
  function Touched(other: Player.Player?): (s: set<Player.Player>)
    ensures other != null <==> other in s
    ensures |s| <= 1
  {
    if other == null then {} else {other}
  }

  class Goomba {
    var textures: seq<string>
    var squashed: bool
    var timing: real
    var frame: nat
    var squashedTime: real
    var dx: real
    var lastx: real
    var direction: int
    var texture: Texture
    /** Set once the goomba has asked the engine to remove it. */
    var removed: bool
    // the physics body
    var px: real
    var py: real
    var vx: real
    var vy: real

    ghost predicate Valid()
      reads this
    {
      && (direction == 1 || direction == -1)
      && frame <= 1
      && (texture.Image? ==> texture.index < |TEXTURE_NAMES|)
      && 0.0 <= squashedTime <= SQUASH_DURATION
      && (!squashed ==> squashedTime == 0.0)
      && 0.0 <= dx <= PATROL_LENGTH
    }

    function CurrentWalk(): Walk
      reads this
    {
      Walk(direction, dx, lastx, vx, vy)
    }

    /** A goomba whose body the engine placed at (`x`, `y`), its direction drawn
        from `draw`, the outcome of `random.randint(0, 1)`. */
    constructor (draw: int, x: real, y: real)
      ensures Valid()
      ensures textures == [] && !squashed && timing == 0.0 && frame == 0 && squashedTime == 0.0
      ensures dx == 0.0 && lastx == 0.0 && direction == InitialDirection(draw)
      ensures texture == NoTexture && !removed
      ensures px == x && py == y && vx == 0.0 && vy == 0.0
    {
      textures := [];
      squashed := false;
      timing := 0.0;
      frame := 0;
      squashedTime := 0.0;
      dx := 0.0;
      lastx := 0.0;
      direction := if draw == 0 then 1 else -1;
      texture := NoTexture;
      removed := false;
      px, py, vx, vy := x, y, 0.0, 0.0;
    }

    /** `start`: loads the three images (a texture is named by its path), remembers
        the starting x and sets off walking. */
    method Start()
      requires Valid()
      modifies this`textures, this`lastx, this`vx, this`vy
      ensures Valid()
      ensures textures == old(textures) + Paths()
      ensures lastx == px && vx == direction as real * WALK_SPEED && vy == 0.0
    {
      ghost var textures0 := textures;
      var i := 0;
      while i < |TEXTURE_NAMES|
        invariant 0 <= i <= |TEXTURE_NAMES|
        invariant textures == textures0 + Paths()[..i]
      {
        assert Paths()[..i + 1] == Paths()[..i] + [FOLDER + TEXTURE_NAMES[i]];
        textures := textures + [FOLDER + TEXTURE_NAMES[i]];
        i := i + 1;
      }
      assert Paths()[..i] == Paths();
      lastx := px;
      vx, vy := direction as real * WALK_SPEED, 0.0;
    }

    /** `fixedUpdate`. */
    method FixedUpdate()
      requires Valid()
      modifies this`direction, this`dx, this`lastx, this`vx, this`vy
      ensures Valid()
      ensures CurrentWalk() == Patrol(old(CurrentWalk()), px, squashed)
    {
      if Player.Abs(px - lastx) < 0.01 && !squashed {
        vx, vy := direction as real * WALK_SPEED, HOP_SPEED;
      }
      dx := dx + Player.Abs(px - lastx);
      lastx := px;
      if !squashed {
        vx := direction as real * WALK_SPEED;
      } else {
        dx := 0.0;
      }
      if dx > PATROL_LENGTH {
        direction := -direction;
        dx := 0.0;
      }
    }

    /** `update`: the walk frame toggles, and the texture is the squashed image
        while squashed (then the squash timer runs), the walk frame otherwise. */
    method Update()
      requires Valid()
      modifies this`frame, this`timing, this`texture, this`squashed, this`squashedTime
      ensures Valid()
      ensures (frame, timing) == Blink(old(frame), old(timing))
      ensures (squashed, squashedTime) == SquashStep(old(squashed), old(squashedTime))
      ensures texture == if old(squashed) then Image(SQUASHED_IMAGE) else Image(frame)
    {
      if timing > 1.0 {
        frame := if frame == 0 then 1 else 0;
        timing := 0.0;
      }
      timing := timing + BLINK_STEP;
      if squashed {
        texture := Image(SQUASHED_IMAGE);
        squashedTime := squashedTime + SQUASH_STEP;
        if squashedTime > SQUASH_DURATION {
          squashed := false;
          squashedTime := 0.0;
        }
      } else {
        texture := Image(frame);
      }
    }

    /** `beginContact` with a body whose owner is `other` (null when it is not the
        player): the player squashes the goomba and bounces up, dies when it hits
        the goomba level with it, and a second stomp removes the goomba. */
    method BeginContact(other: Player.Player?)
      requires Valid()
      modifies this`removed, this`squashed, Touched(other)`vy, Touched(other)`dead
      ensures Valid()
      ensures other == null ==> removed == old(removed) && squashed == old(squashed)
      ensures other != null ==> squashed && other.vy == BOUNCE_SPEED
      ensures other != null ==> removed == (old(removed) || old(squashed))
      ensures other != null ==> other.dead == (old(other.dead) || Player.Abs(py - other.py) < 0.1)
    {
      if other != null && squashed {
        removed := true;
      }
      if other != null {
        squashed := true;
        other.vy := BOUNCE_SPEED;
      }
      if other != null {
        if Player.Abs(py - other.py) < 0.1 {
          other.dead := true;
        }
      }
    }

    /** `postSolve`: after a collision with a body of the engine's dynamic type,
        whether or not that body is moving, the goomba turns round and starts a
        new patrol. */
    method PostSolve(otherIsDynamic: bool)
      requires Valid()
      modifies this`direction, this`dx
      ensures Valid()
      ensures otherIsDynamic ==> direction == -old(direction) && dx == 0.0
      ensures !otherIsDynamic ==> direction == old(direction) && dx == old(dx)
    {
      if otherIsDynamic {
        direction := -direction;
        dx := 0.0;
      }
    }
  }
}
