/** The client's copies of the ball and paddles (client/entities/ball.py,
    client/entities/paddle.py): plain holders of whatever values the
    server last sent, updated field by field from a state dict. */
module ClientEntities {
  import opened Values
  import opened Entities

  /** `d.get(key, current)`. */
  function Get(d: map<string, Value>, key: string, current: Value): (v: Value)
    ensures key in d ==> v == d[key]
    ensures key !in d ==> v == current
  {
    if key in d then d[key] else current
  }

  datatype BallFields = BallFields(x: Value, y: Value, dx: Value, dy: Value, radius: Value, color: Value)

  datatype PaddleFields = PaddleFields(x: Value, y: Value, width: Value, height: Value, color: Value)

  /** The ball after `from_dict(d)`. */
  function BallMerged(b: BallFields, d: map<string, Value>): BallFields {
    BallFields(Get(d, "x", b.x), Get(d, "y", b.y), Get(d, "dx", b.dx), Get(d, "dy", b.dy),
               Get(d, "radius", b.radius), Get(d, "color", b.color))
  }

  /** The paddle after `from_dict(d)`. */
  function PaddleMerged(p: PaddleFields, d: map<string, Value>): PaddleFields {
    PaddleFields(Get(d, "x", p.x), Get(d, "y", p.y), Get(d, "width", p.width), Get(d, "height", p.height),
                 Get(d, "color", p.color))
  }

  /** An empty dict changes nothing, and merging the same dict twice is
      merging it once. */
  lemma BallMergeLaws(b: BallFields, d: map<string, Value>)
    ensures BallMerged(b, map[]) == b
    ensures BallMerged(BallMerged(b, d), d) == BallMerged(b, d)
  {
  }

  lemma PaddleMergeLaws(p: PaddleFields, d: map<string, Value>)
    ensures PaddleMerged(p, map[]) == p
    ensures PaddleMerged(PaddleMerged(p, d), d) == PaddleMerged(p, d)
  {
  }

  /** Merging two dicts one after the other is merging their union, the
      later one winning on common keys. */
  lemma BallMergeCompose(b: BallFields, d1: map<string, Value>, d2: map<string, Value>)
    ensures BallMerged(BallMerged(b, d1), d2) == BallMerged(b, d1 + d2)
  {
  }

  /** What the client holds after merging the ball the server sends: the
      server ball's own position, velocity, radius and colour, whatever the
      client held before. */
  lemma BallSeesServer(c: BallFields, b: BallState)
    ensures BallMerged(c, BallDict(b)) == BallFields(Num(b.x), Num(b.y), Num(b.dx), Num(b.dy), Num(b.radius), Str(b.color))
  {
  }

  lemma PaddleSeesServer(c: PaddleFields, p: PaddleState)
    ensures PaddleMerged(c, PaddleDict(p)) == PaddleFields(Num(p.x), Num(p.y), Num(p.width), Num(p.height), Str(p.color))
  {
  }

  class ClientBall {
    var x: Value
    var y: Value
    var radius: Value
    var color: Value
    var dx: Value
    var dy: Value

    function Fields(): BallFields
      reads this
    {
      BallFields(x, y, dx, dy, radius, color)
    }

    /** A ball at the given place, at rest. */
    constructor(x: Value, y: Value, radius: Value, color: Value)
      ensures Fields() == BallFields(x, y, Num(0.0), Num(0.0), radius, color)
    {
      this.x := x;
      this.y := y;
      this.radius := radius;
      this.color := color;
      this.dx := Num(0.0);
      this.dy := Num(0.0);
    }

    /** `Ball()` with every argument left at its default: the window
        centre, radius 8, white. */
    constructor Default()
      ensures Fields() == BallFields(Num(400.0), Num(300.0), Num(0.0), Num(0.0), Num(8.0), Str("#FFFFFF"))
    {
      x := Num(400.0);
      y := Num(300.0);
      radius := Num(8.0);
      color := Str("#FFFFFF");
      dx := Num(0.0);
      dy := Num(0.0);
    }

    method FromDict(d: map<string, Value>)
      modifies this
      ensures Fields() == BallMerged(old(Fields()), d)
    {
      x := if "x" in d then d["x"] else x;
      y := if "y" in d then d["y"] else y;
      dx := if "dx" in d then d["dx"] else dx;
      dy := if "dy" in d then d["dy"] else dy;
      radius := if "radius" in d then d["radius"] else radius;
      color := if "color" in d then d["color"] else color;
    }
  }

  class ClientPaddle {
    var x: Value
    var y: Value
    var width: Value
    var height: Value
    var color: Value

    function Fields(): PaddleFields
      reads this
    {
      PaddleFields(x, y, width, height, color)
    }

    constructor(x: Value, y: Value, width: Value, height: Value, color: Value)
      ensures Fields() == PaddleFields(x, y, width, height, color)
    {
      this.x := x;
      this.y := y;
      this.width := width;
      this.height := height;
      this.color := color;
    }

    /** `Paddle()` with every argument left at its default: 120 by 12 at
        the window centre, white. */
    constructor Default()
      ensures Fields() == PaddleFields(Num(400.0), Num(300.0), Num(120.0), Num(12.0), Str("#FFFFFF"))
    {
      x := Num(400.0);
      y := Num(300.0);
      width := Num(120.0);
      height := Num(12.0);
      color := Str("#FFFFFF");
    }

    method FromDict(d: map<string, Value>)
      modifies this
      ensures Fields() == PaddleMerged(old(Fields()), d)
    {
      x := if "x" in d then d["x"] else x;
      y := if "y" in d then d["y"] else y;
      width := if "width" in d then d["width"] else width;
      height := if "height" in d then d["height"] else height;
      color := if "color" in d then d["color"] else color;
    }
  }
}
