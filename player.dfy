/** The player character: jump counter, run animation, steering by the hand
    tracker or the keyboard, camera follow and respawn. The physics body is
    reduced to its position (`px`, `py`) and velocity (`vx`, `vy`), which the
    physics engine changes between callbacks and each callback reads and writes. */
module Player {
  import opened HandTracker

  /** Which of the two sprite lists a texture comes from. The source draws the
      images of the `MarioLeft` folder while moving right (vx > 0). */
  datatype Side = Right | Left

  /** The texture shown: nothing yet, or an index into the six-image list of a side. */
  datatype Texture = NoTexture | Sprite(side: Side, index: nat)

  /** A key event, reduced to the keys the player reacts to. */
  datatype Key = KeyA | KeyD | KeySpace | OtherKey

  const TEXTURE_NAMES: seq<string> :=
    ["mario_standing.png", "mario_run1.png", "mario_run2.png", "mario_run3.png", "mario_slide.png", "mario_jump.png"]
  const RIGHT_FOLDER: string := "./MarioAssets/MarioRight/"
  const LEFT_FOLDER: string := "./MarioAssets/MarioLeft/"

  const TEXTURE_COUNT: nat := 6
  const STANDING: nat := 0
  /** The second to last image (index -2 in the source). */
  const SLIDING: nat := 4
  /** The last image (index -1 in the source). */
  const JUMPING: nat := 5

  const MAX_JUMPS: nat := 2
  const JUMP_SPEED: real := 10.0
  const KEY_SPEED: real := 8.0
  const HAND_SPEED: real := 32.0
  const CAMERA_MIN: real := -12.65
  const CAMERA_MAX: real := -0.715

  function Abs(x: real): real {
    if x < 0.0 then -x else x
  }

  function Facing(vx: real): Side {
    if vx > 0.0 then Left else Right
  }

  /** The camera x clamp of `fixedUpdate`. */
  function CameraClamp(x: real): (c: real)
    ensures CAMERA_MIN <= c <= CAMERA_MAX
    ensures CAMERA_MIN <= x <= CAMERA_MAX ==> c == x
    ensures x > CAMERA_MAX ==> c == CAMERA_MAX
    ensures x < CAMERA_MIN ==> c == CAMERA_MIN
  {
    if x > CAMERA_MAX then CAMERA_MAX
    else if x < CAMERA_MIN then CAMERA_MIN
    else x
  }

  /** The animation counter step of `update`: the frame and the timer after it. */
  function Tick(frame: nat, timing: real): (r: (nat, real))
    ensures frame <= 2 ==> r.0 <= 2
    ensures frame <= 2 ==> r.0 == if timing > 1.0 then (frame + 1) % 3 else frame
    ensures r.1 == if timing > 1.0 then 0.2 else timing + 0.2
  {
    var f := if timing > 1.0 then frame + 1 else frame;
    var t := if timing > 1.0 then 0.0 else timing;
    (if f == 3 then 0 else f, t + 0.2)
  }

  /** The texture of `update` and the frame after choosing it, from the horizontal
      velocity, whether the player was running or jumping, and the frame. */
  function Pose(vx: real, running: bool, jumping: bool, frame: nat): (r: (Texture, nat))
    ensures r.0.Sprite? && r.0.side == Facing(vx)
    ensures frame <= 2 ==> r.0.index < TEXTURE_COUNT && r.1 <= 2
    ensures frame <= 2 ==> (r.0.index == JUMPING <==> jumping)
    ensures r.1 == if Abs(vx) > 1.0 && running then frame else 0
    ensures !jumping ==>
      if Abs(vx) > 1.0 && running then r.0.index == frame + 1
      else if Abs(vx) > 0.5 then r.0.index == SLIDING
      else r.0.index == STANDING
  {
    var side := Facing(vx);
    var (tex, f) :=
      if Abs(vx) > 1.0 && running then (Sprite(side, frame + 1), frame)
      else if Abs(vx) > 0.5 then (Sprite(side, SLIDING), 0)
      else (Sprite(side, STANDING), 0);
    (if jumping then Sprite(side, JUMPING) else tex, f)
  }

  /** Every texture the player can show is one of the six of a list. */
  predicate TextureInRange(t: Texture) {
    t.Sprite? ==> t.index < TEXTURE_COUNT
  }

  /** What `update` draws: the animation frame, its timer and the texture. */
  datatype Look = Look(frame: nat, timing: real, texture: Texture)

  /** The first half of `update`: the counter step, then the texture choice. */
  function Animation(l: Look, vx: real, running: bool, jumping: bool): (r: Look)
    ensures r.texture.Sprite? && r.texture.side == Facing(vx)
    ensures l.frame <= 2 ==> r.frame <= 2 && TextureInRange(r.texture)
    ensures l.frame <= 2 && !jumping && Abs(vx) > 1.0 && running ==> 1 <= r.texture.index <= 3
    ensures l.frame <= 2 ==> (r.texture.index == JUMPING <==> jumping)
  {
    var t := Tick(l.frame, l.timing);
    var p := Pose(vx, running, jumping, t.0);
    Look(p.1, t.1, p.0)
  }

  /** The velocity and jump state that steering changes. */
  datatype Motion = Motion(vx: real, vy: real, jumps: nat, running: bool)

  /** A jump: while fewer than two jumps are used, the vertical velocity becomes 10
      and one more jump is used; otherwise nothing changes. */
  function Jump(m: Motion): (r: Motion)
    ensures m.jumps <= MAX_JUMPS ==> r.jumps <= MAX_JUMPS
    ensures r.jumps == m.jumps || r.jumps == m.jumps + 1
    ensures r.jumps == m.jumps + 1 <==> m.jumps < MAX_JUMPS
    ensures r.vx == m.vx && r.running == m.running
  {
    if m.jumps < MAX_JUMPS then m.(vy := JUMP_SPEED, jumps := m.jumps + 1) else m
  }

  /** The second half of `update`: the hand vector's x steers, a y below 0.4 jumps. */
  function Steering(hd: seq<real>, m: Motion): (r: Motion)
    requires |hd| == 2
    ensures r.running <==> Abs(hd[0]) > 0.1
    ensures r.vx == if Abs(hd[0]) > 0.1 then HAND_SPEED * hd[0] else m.vx
    ensures r.jumps == m.jumps + 1 <==> hd[1] < 0.4 && m.jumps < MAX_JUMPS
    ensures r.jumps == m.jumps + 1 ==> r.vy == JUMP_SPEED
    ensures r.jumps != m.jumps + 1 ==> r.vy == m.vy && r.jumps == m.jumps
  {
    var steered := if Abs(hd[0]) > 0.1 then m.(vx := HAND_SPEED * hd[0], running := true) else m.(running := false);
    if hd[1] < 0.4 then Jump(steered) else steered
  }

  /** `keyPressed`: A sets the horizontal velocity to +8 and D to -8, and both count
      as running; Space jumps; any other key stops running. */
  function KeyMotion(key: Key, m: Motion): (r: Motion)
    ensures r.vx == if key == KeyA then KEY_SPEED else if key == KeyD then -KEY_SPEED else m.vx
    ensures r.jumps == m.jumps + 1 <==> key == KeySpace && m.jumps < MAX_JUMPS
    ensures r.jumps == m.jumps + 1 ==> r.vy == JUMP_SPEED
    ensures r.jumps != m.jumps + 1 ==> r.vy == m.vy && r.jumps == m.jumps
    ensures r.running <==> key == KeyA || key == KeyD
  {
    var moved := if key == KeyA then m.(vx := KEY_SPEED) else if key == KeyD then m.(vx := -KEY_SPEED) else m;
    var jumped := if key == KeySpace then Jump(moved) else moved;
    jumped.(running := key == KeyA || key == KeyD)
  }

  /** `n` jump requests in a row from the ground. */
  function Jumps(m: Motion, n: nat): Motion
  {
    if n == 0 then m else Jump(Jumps(m, n - 1))
  }

  /** However many jumps are requested in the air, only the first two take effect. */
  lemma {:induction false} AtMostTwoJumps(m: Motion, n: nat)
    requires m.jumps == 0
    ensures Jumps(m, n).jumps == if n < MAX_JUMPS then n else MAX_JUMPS
    ensures n > 0 ==> Jumps(m, n).vy == JUMP_SPEED
  {
    if n > 0 {
      AtMostTwoJumps(m, n - 1);
    }
  }

  /** The sprite paths of one side, in the order of `TEXTURE_NAMES`. */
  function Paths(folder: string): seq<string> {
    seq(|TEXTURE_NAMES|, k requires 0 <= k < |TEXTURE_NAMES| => folder + TEXTURE_NAMES[k])
  }

  class Player {
    var yPos: real
    var jumps: nat
    var rightTex: seq<string>
    var leftTex: seq<string>
    var running: bool
    var jumping: bool
    var timing: real
    var frame: nat
    var startX: real
    var startY: real
    var dead: bool
    var handInput: HandInput
    var texture: Texture
    // the physics body
    var px: real
    var py: real
    var vx: real
    var vy: real
    // the game screen's camera
    var cameraX: real
    var cameraY: real

    ghost predicate Valid()
      reads this, handInput
    {
      jumps <= MAX_JUMPS && frame <= 2 && TextureInRange(texture) && handInput.Valid()
    }

    /** The sprite lists are loaded, as `start` does before any `update`. */
    predicate Started()
      reads this
    {
      rightTex == Paths(RIGHT_FOLDER) && leftTex == Paths(LEFT_FOLDER)
    }

    /** A player whose body the engine has placed at (`x`, `y`). */
    constructor (x: real, y: real)
      ensures Valid() && fresh(handInput)
      ensures yPos == 0.0 && jumps == 0 && rightTex == [] && leftTex == []
      ensures !running && !jumping && timing == 0.0 && frame == 0 && !dead
      ensures startX == 0.0 && startY == 0.0 && texture == NoTexture
      ensures px == x && py == y && vx == 0.0 && vy == 0.0
      ensures handInput.handDelta == [0.0, 0.0]
      ensures handInput.currentGesture == Unset && handInput.lastGesture == Unset
    {
      yPos := 0.0;
      jumps := 0;
      rightTex := [];
      leftTex := [];
      running := false;
      jumping := false;
      timing := 0.0;
      frame := 0;
      startX, startY := 0.0, 0.0;
      dead := false;
      handInput := new HandInput();
      texture := NoTexture;
      px, py, vx, vy := x, y, 0.0, 0.0;
      cameraX, cameraY := 0.0, 0.0;
    }

    /** `start`: loads both sprite lists image by image (a texture is named by its
        path), sets the camera height and remembers the spawn point. */
    method Start()
      requires Valid()
      modifies this`rightTex, this`leftTex, this`yPos, this`startX, this`startY
      ensures Valid()
      ensures old(rightTex) == [] && old(leftTex) == [] ==> Started()
      ensures rightTex == old(rightTex) + Paths(RIGHT_FOLDER) && leftTex == old(leftTex) + Paths(LEFT_FOLDER)
      ensures yPos == py + 0.285 && startX == px && startY == py
    {
      ghost var right0, left0 := rightTex, leftTex;
      var i := 0;
      while i < |TEXTURE_NAMES|
        invariant 0 <= i <= |TEXTURE_NAMES|
        invariant rightTex == right0 + Paths(RIGHT_FOLDER)[..i]
        invariant leftTex == left0 + Paths(LEFT_FOLDER)[..i]
      {
        var path := TEXTURE_NAMES[i];
        assert Paths(RIGHT_FOLDER)[..i + 1] == Paths(RIGHT_FOLDER)[..i] + [RIGHT_FOLDER + path];
        assert Paths(LEFT_FOLDER)[..i + 1] == Paths(LEFT_FOLDER)[..i] + [LEFT_FOLDER + path];
        rightTex := rightTex + [RIGHT_FOLDER + path];
        leftTex := leftTex + [LEFT_FOLDER + path];
        i := i + 1;
      }
      assert Paths(RIGHT_FOLDER)[..i] == Paths(RIGHT_FOLDER);
      assert Paths(LEFT_FOLDER)[..i] == Paths(LEFT_FOLDER);
      yPos := py + 0.285;
      startX, startY := px, py;
    }

    /** `fixedUpdate`: the camera follows the player within the level, and a player
        that fell out of the level or was killed returns to the spawn point at rest. */
    method FixedUpdate()
      requires Valid()
      modifies this`cameraX, this`cameraY, this`px, this`py, this`vx, this`vy, this`dead
      ensures Valid()
      ensures cameraX == CameraClamp(old(px) - 0.275) && cameraY == yPos
      ensures old(py) < -1.0 || old(dead) ==>
        px == startX && py == startY && vx == 0.0 && vy == 0.0 && !dead
      ensures !(old(py) < -1.0 || old(dead)) ==>
        px == old(px) && py == old(py) && vx == old(vx) && vy == old(vy) && !dead
    {
      cameraX, cameraY := px - 0.275, yPos;
      if cameraX > CAMERA_MAX {
        cameraX := CAMERA_MAX;
      } else if cameraX < CAMERA_MIN {
        cameraX := CAMERA_MIN;
      }
      if py < -1.0 || dead {
        px, py := startX, startY;
        vx, vy := 0.0, 0.0;
        dead := false;
      }
    }

    /** The animation state of the player. */
    function CurrentLook(): Look
      reads this
    {
      Look(frame, timing, texture)
    }

    /** The steering state of the player. */
    function CurrentMotion(): Motion
      reads this
    {
      Motion(vx, vy, jumps, running)
    }

    /** `update` for a frame in which the tracker sees `hands`: advances the run
        animation, picks the texture, then steers and jumps by the hand vector. */
    method Update(hands: seq<Hand>, sqrt: real -> real)
      requires Valid() && Started() && IsSqrt(sqrt)
      requires forall i :: 0 <= i < |hands| ==> NonDegenerate(hands[i])
      modifies this`frame, this`timing, this`texture, this`vx, this`vy, this`running, this`jumps, handInput
      ensures Valid()
      ensures CurrentLook() == Animation(old(CurrentLook()), old(vx), old(running), jumping)
      ensures texture.Sprite? && texture.index < |leftTex| && texture.index < |rightTex|
      ensures CurrentMotion() == Steering(FrameControl(hands, HAND_CENTER), old(CurrentMotion()))
      ensures handInput.handDelta == Delta(Accumulate(Landmarks(hands)))
      ensures hands == [] ==>
        handInput.currentGesture == old(handInput.currentGesture) && handInput.lastGesture == old(handInput.lastGesture)
      ensures hands != [] ==>
        handInput.currentGesture == handInput.lastGesture == HandGesture(hands[|hands| - 1])
    {
      Animate();
      HandStep(hands, sqrt);
    }

    /** The hand part of `update`: one tracker frame, then steering by its vector. */
    method HandStep(hands: seq<Hand>, sqrt: real -> real)
      requires Valid() && IsSqrt(sqrt)
      requires forall i :: 0 <= i < |hands| ==> NonDegenerate(hands[i])
      modifies this`vx, this`vy, this`running, this`jumps, handInput
      ensures Valid()
      ensures CurrentMotion() == Steering(FrameControl(hands, HAND_CENTER), old(CurrentMotion()))
      ensures handInput.handDelta == Delta(Accumulate(Landmarks(hands)))
      ensures hands == [] ==>
        handInput.currentGesture == old(handInput.currentGesture) && handInput.lastGesture == old(handInput.lastGesture)
      ensures hands != [] ==>
        handInput.currentGesture == handInput.lastGesture == HandGesture(hands[|hands| - 1])
    {
      ghost var recenterings: nat;
      var handDelta;
      handDelta, recenterings := handInput.GetHandInput(hands, sqrt);
      Steer(handDelta);
    }

    /** The first half of `update`. */
    method Animate()
      requires Valid()
      modifies this`frame, this`timing, this`texture
      ensures Valid()
      ensures CurrentLook() == Animation(old(CurrentLook()), vx, running, jumping)
    {
      if timing > 1.0 {
        frame := frame + 1;
        timing := 0.0;
      }
      if frame == 3 {
        frame := 0;
      }
      timing := timing + 0.2;

      var side := Facing(vx);
      if Abs(vx) > 1.0 && running {
        texture := Sprite(side, frame + 1);
      } else if Abs(vx) > 0.5 {
        texture := Sprite(side, SLIDING);
        frame := 0;
      } else {
        texture := Sprite(side, STANDING);
        frame := 0;
      }
      if jumping {
        texture := Sprite(side, JUMPING);
      }
    }

    /** The second half of `update`. */
    method Steer(handDelta: seq<real>)
      requires Valid() && |handDelta| == 2
      modifies this`vx, this`vy, this`running, this`jumps
      ensures Valid()
      ensures CurrentMotion() == Steering(handDelta, old(CurrentMotion()))
    {
      if Abs(handDelta[0]) > 0.1 {
        vx := HAND_SPEED * handDelta[0];
        running := true;
      } else {
        running := false;
      }
      if handDelta[1] < 0.4 && jumps < MAX_JUMPS {
        vy := JUMP_SPEED;
        jumps := jumps + 1;
      }
    }

    /** `keyPressed`. */
    method KeyPressed(key: Key)
      requires Valid()
      modifies this`vx, this`vy, this`jumps, this`running
      ensures Valid()
      ensures CurrentMotion() == KeyMotion(key, old(CurrentMotion()))
    {
      if key == KeyA {
        vx := KEY_SPEED;
      }
      if key == KeyD {
        vx := -KEY_SPEED;
      }
      if key == KeySpace && jumps < MAX_JUMPS {
        vy := JUMP_SPEED;
        jumps := jumps + 1;
      }
      if key == KeyA || key == KeyD {
        running := true;
      } else {
        running := false;
      }
    }

    /** `beginContact`: touching any body lands the player and restores both jumps. */
    method BeginContact()
      requires Valid()
      modifies this`jumping, this`jumps
      ensures Valid()
      ensures !jumping && jumps == 0
    {
      jumping := false;
      jumps := 0;
    }

    /** `endContact`: leaving a body while moving vertically faster than 0.5
        counts as jumping; otherwise the flag is kept. */
    method EndContact()
      requires Valid()
      modifies this`jumping
      ensures Valid()
      ensures jumping == (old(jumping) || Abs(vy) > 0.5)
    {
      if Abs(vy) > 0.5 {
        jumping := true;
      }
    }
  }
}
