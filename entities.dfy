/** The server-side paddle and ball (entities/paddle.py, entities/ball.py):
    objects whose fields the engine updates in place every tick. Each class
    reports its fields as a value (`State()`), and its methods are specified
    by pure transitions on that value. */
module Entities {
  import opened Values

  // ---------------------------------------------------------------------
  // Paddle

  datatype PaddleState = PaddleState(x: real, y: real, width: real, height: real,
                                     color: string, speed: real, vx: real, command: string)

  /** The horizontal velocity a movement command selects. */
  function CommandVelocity(cmd: string, speed: real): (v: real)
    ensures cmd == "left" ==> v == -speed
    ensures cmd == "right" ==> v == speed
    ensures cmd != "left" && cmd != "right" ==> v == 0.0
  {
    if cmd == "left" then -speed else if cmd == "right" then speed else 0.0
  }

  /** The paddle after `apply_command(cmd)`. */
  function Commanded(p: PaddleState, cmd: string): PaddleState {
    p.(command := cmd, vx := CommandVelocity(cmd, p.speed))
  }

  /** The new centre after clamping `x` into `[lb + half, rb - half]`: first
      raised to the lower limit, then lowered to the upper one. */
  function ClampX(x: real, half: real, lb: real, rb: real): (r: real)
    ensures lb + half <= rb - half ==> lb + half <= r <= rb - half
    ensures lb + half <= x <= rb - half ==> r == x
    ensures x < lb + half && lb + half <= rb - half ==> r == lb + half
    ensures x > rb - half ==> r == rb - half
    ensures lb + half > rb - half ==> r == rb - half
  {
    var r1 := if x < lb + half then lb + half else x;
    if r1 > rb - half then rb - half else r1
  }

  /** The paddle after `update(dt, lb, rb)`. */
  function Moved(p: PaddleState, dt: real, lb: real, rb: real): PaddleState {
    p.(x := ClampX(p.x + p.vx * dt, p.width / 2.0, lb, rb))
  }

  /** A command fixes the velocity, so repeating it changes nothing, and the
      last of two commands wins. */
  lemma CommandLastWins(p: PaddleState, c1: string, c2: string)
    ensures Commanded(Commanded(p, c1), c2) == Commanded(p, c2)
    ensures Commanded(Commanded(p, c1), c1) == Commanded(p, c1)
  {
  }

  /** Moving keeps the paddle on the board: for a paddle no wider than the
      board span its whole extent lies in `[lb, rb]`, and a paddle already at
      rest inside the span does not move. Moving changes nothing but `x`. */
  lemma MovedStaysOnBoard(p: PaddleState, dt: real, lb: real, rb: real)
    requires p.width <= rb - lb
    ensures var q := Moved(p, dt, lb, rb);
            lb <= q.x - q.width / 2.0 && q.x + q.width / 2.0 <= rb
    ensures var q := Moved(p, dt, lb, rb);
            (q.y, q.width, q.height, q.color, q.speed, q.vx, q.command)
            == (p.y, p.width, p.height, p.color, p.speed, p.vx, p.command)
    ensures p.vx == 0.0 && lb + p.width / 2.0 <= p.x <= rb - p.width / 2.0 ==> Moved(p, dt, lb, rb) == p
  {
  }

  /** A clamped paddle is a fixed point of clamping: updating a paddle that
      stands still twice is the same as once. */
  lemma MovedAtRestIdempotent(p: PaddleState, dt: real, lb: real, rb: real)
    requires p.vx == 0.0 && p.width <= rb - lb
    ensures Moved(Moved(p, dt, lb, rb), dt, lb, rb) == Moved(p, dt, lb, rb)
  {
  }

  /** The axis-aligned rectangle `(left, top, right, bottom)` a paddle occupies. */
  datatype Rect = Rect(left: real, top: real, right: real, bottom: real)

  /** The paddle as a JSON object, as sent to the clients: every field but
      the velocity, with its current value. */
  function PaddleDict(p: PaddleState): (d: map<string, Value>)
    ensures d.Keys == {"x", "y", "width", "height", "color", "speed", "command"}
    ensures d["x"] == Num(p.x) && d["y"] == Num(p.y)
    ensures d["width"] == Num(p.width) && d["height"] == Num(p.height)
    ensures d["color"] == Str(p.color) && d["speed"] == Num(p.speed) && d["command"] == Str(p.command)
  {
    map["x" := Num(p.x), "y" := Num(p.y), "width" := Num(p.width), "height" := Num(p.height),
        "color" := Str(p.color), "speed" := Num(p.speed), "command" := Str(p.command)]
  }

  /** Two paddles report the same dict exactly when they agree on every
      field but the velocity. */
  lemma PaddleDictFaithful(p: PaddleState, q: PaddleState)
    ensures PaddleDict(p) == PaddleDict(q) <==> p.(vx := 0.0) == q.(vx := 0.0)
  {
  }

  class Paddle {
    var x: real
    var y: real
    var width: real
    var height: real
    var color: string
    var speed: real
    var vx: real
    var command: string

    /** A paddle at rest with the `stop` command. */
    constructor(x: real, y: real, width: real, height: real, color: string, speed: real)
      ensures State() == PaddleState(x, y, width, height, color, speed, 0.0, "stop")
    {
      this.x := x;
      this.y := y;
      this.width := width;
      this.height := height;
      this.color := color;
      this.speed := speed;
      this.vx := 0.0;
      this.command := "stop";
    }

    function State(): PaddleState
      reads this
    {
      PaddleState(x, y, width, height, color, speed, vx, command)
    }

    method ApplyCommand(cmd: string)
      modifies this
      ensures State() == Commanded(old(State()), cmd)
    {
      command := cmd;
      if cmd == "left" {
        vx := -speed;
      } else if cmd == "right" {
        vx := speed;
      } else {
        vx := 0.0;
      }
    }

    method Update(dt: real, leftBound: real, rightBound: real)
      modifies this
      ensures State() == Moved(old(State()), dt, leftBound, rightBound)
    {
      x := x + vx * dt;
      var half := width / 2.0;
      var minX := leftBound + half;
      var maxX := rightBound - half;
      if x < minX {
        x := minX;
      }
      if x > maxX {
        x := maxX;
      }
    }

    /** A `width` by `height` rectangle centred on the paddle. */
    function GetBounds(): (r: Rect)
      reads this
      ensures r.right - r.left == width && r.bottom - r.top == height
      ensures (r.left + r.right) / 2.0 == x && (r.top + r.bottom) / 2.0 == y
    {
      var half := width / 2.0;
      Rect(x - half, y - height / 2.0, x + half, y + height / 2.0)
    }

    function ToDict(): map<string, Value>
      reads this
    {
      PaddleDict(State())
    }
  }

  // ---------------------------------------------------------------------
  // Ball

  datatype BallState = BallState(x: real, y: real, dx: real, dy: real, radius: real,
                                 color: string, speed: real,
                                 specialReady: bool, specialActive: bool)

  /** The ball after `update(dt)`: one step along its velocity. */
  function Advanced(b: BallState, dt: real): BallState {
    b.(x := b.x + b.dx * dt, y := b.y + b.dy * dt)
  }

  /** A step forward followed by the same step backward returns the ball,
      and two steps compose into one. */
  lemma AdvanceInverse(b: BallState, dt: real, dt2: real)
    ensures Advanced(Advanced(b, dt), -dt) == b
    ensures Advanced(Advanced(b, dt), dt2) == Advanced(b, dt + dt2)
  {
  }

  /** The ball after `reset(x, y, speed)`: at `(x, y)`, with the new speed if
      one is given, heading along `dir` (the sine and signed cosine of the
      random launch angle), special flags cleared. */
  function Respawned(b: BallState, x: real, y: real, speed: Option<real>, dir: (real, real)): (r: BallState)
    ensures r.x == x && r.y == y
    ensures r.speed == speed.GetOr(b.speed)
    ensures !r.specialReady && !r.specialActive
    ensures r.radius == b.radius && r.color == b.color
  {
    var s := speed.GetOr(b.speed);
    b.(speed := s, x := x, y := y, dx := s * dir.0, dy := s * dir.1,
       specialReady := false, specialActive := false)
  }

  /** The ball as a JSON object, as sent to the clients: all nine fields
      with their current values. */
  function BallDict(b: BallState): (d: map<string, Value>)
    ensures d.Keys == {"x", "y", "dx", "dy", "radius", "color", "speed", "special_ready", "special_active"}
    ensures d["x"] == Num(b.x) && d["y"] == Num(b.y) && d["dx"] == Num(b.dx) && d["dy"] == Num(b.dy)
    ensures d["radius"] == Num(b.radius) && d["color"] == Str(b.color) && d["speed"] == Num(b.speed)
    ensures d["special_ready"] == Bool(b.specialReady) && d["special_active"] == Bool(b.specialActive)
  {
    map["x" := Num(b.x), "y" := Num(b.y), "dx" := Num(b.dx), "dy" := Num(b.dy),
        "radius" := Num(b.radius), "color" := Str(b.color), "speed" := Num(b.speed),
        "special_ready" := Bool(b.specialReady), "special_active" := Bool(b.specialActive)]
  }

  /** The dict determines the ball: two balls report the same dict exactly
      when they are equal. */
  lemma BallDictFaithful(b: BallState, c: BallState)
    ensures BallDict(b) == BallDict(c) <==> b == c
  {
  }

  class Ball {
    var x: real
    var y: real
    var dx: real
    var dy: real
    var radius: real
    var color: string
    var speed: real
    var specialReady: bool
    var specialActive: bool

    /** A ball at `(x, y)` heading along `dir` at `speed`, flags cleared. */
    constructor(x: real, y: real, radius: real, color: string, speed: real, dir: (real, real))
      ensures State() == BallState(x, y, speed * dir.0, speed * dir.1, radius, color, speed, false, false)
    {
      this.x := x;
      this.y := y;
      this.radius := radius;
      this.color := color;
      this.dx := speed * dir.0;
      this.dy := speed * dir.1;
      this.speed := speed;
      this.specialReady := false;
      this.specialActive := false;
    }

    function State(): BallState
      reads this
    {
      BallState(x, y, dx, dy, radius, color, speed, specialReady, specialActive)
    }

    method Update(dt: real)
      modifies this
      ensures State() == Advanced(old(State()), dt)
    {
      x := x + dx * dt;
      y := y + dy * dt;
    }

    method Reset(x: real, y: real, speed: Option<real>, dir: (real, real))
      modifies this
      ensures State() == Respawned(old(State()), x, y, speed, dir)
    {
      if speed.Some? {
        this.speed := speed.value;
      }
      this.x := x;
      this.y := y;
      this.dx := this.speed * dir.0;
      this.dy := this.speed * dir.1;
      specialReady := false;
      specialActive := false;
    }

    function ToDict(): map<string, Value>
      reads this
    {
      BallDict(State())
    }
  }
}
