/** One tick of the authoritative simulation (game.py, `Game.update` up to
    the paddle collisions) as a pure function on the engine's state: the
    trajectory gate, paddle movement, the ball step, wall reflection, piece
    contacts, the combined bounce, cooldown-gated damage and the removal of
    destroyed pieces with the game-over rule. */
module Physics {
  import opened Values
  import opened Board
  import opened Entities

  // ---------------------------------------------------------------------
  // Trajectories

  /** An accepted trajectory: an angle in degrees or one of the labels. */
  datatype Trajectory = Angle(deg: real) | Label(name: string)

  predicate IsLabel(s: string) {
    s == "left" || s == "center" || s == "right"
  }

  predicate WellFormed(t: Trajectory) {
    t.Label? ==> IsLabel(t.name)
  }

  /** What the server and the engine accept as a trajectory: a number (a
      bool is an int); else a string that `float` parses; else one of the
      three labels. Every other value is refused. */
  function AcceptTrajectory(v: Value): (t: Option<Trajectory>)
    ensures t.Some? ==> WellFormed(t.value)
    ensures v.Num? ==> t == Some(Angle(v.r))
    ensures v.Bool? ==> t == Some(Angle(if v.b then 1.0 else 0.0))
    ensures v.Str? ==> (t.Some? <==> ParseFloat(v.s).Some? || IsLabel(v.s))
    ensures v.Str? && ParseFloat(v.s).Some? ==> t == Some(Angle(ParseFloat(v.s).value))
    ensures v.Null? || v.Arr? || v.Obj? ==> t == None
  {
    match v
    case Num(r) => Some(Angle(r))
    case Bool(b) => Some(Angle(if b then 1.0 else 0.0))
    case Str(s) =>
      (match ParseFloat(s)
       case Some(r) => Some(Angle(r))
       case None => if IsLabel(s) then Some(Label(s)) else None)
    case _ => None
  }

  /** The value the server hands to the engine for an accepted trajectory. */
  function TrajectoryValue(t: Trajectory): Value {
    match t
    case Angle(d) => Num(d)
    case Label(s) => Str(s)
  }

  /** The engine accepts again exactly what the server accepted: the two
      checks agree on every value the server passes on. */
  lemma TrajectoryRoundTrip(t: Trajectory)
    requires WellFormed(t)
    ensures AcceptTrajectory(TrajectoryValue(t)) == Some(t)
  {
    if t.Label? {
      LabelsAreNotNumbers();
    }
  }

  /** The launch angle in degrees: the given angle, or 225, 315 and 270 for
      `left`, `right` and anything else. */
  function LaunchAngle(t: Trajectory): (deg: real)
    ensures t.Angle? ==> deg == t.deg
    ensures t.Label? ==> 225.0 <= deg <= 315.0
    ensures t.Label? && t.name == "center" ==> deg == 270.0
  {
    match t
    case Angle(d) => d
    case Label(s) => if s == "left" then 225.0 else if s == "right" then 315.0 else 270.0
  }

  /** The labels are symmetric about the vertical: `left` and `right` lie
      45 degrees either side of `center`. */
  lemma LabelsSymmetric()
    ensures LaunchAngle(Label("left")) + 45.0 == LaunchAngle(Label("center"))
    ensures LaunchAngle(Label("center")) + 45.0 == LaunchAngle(Label("right"))
  {
  }

  const BASE_SPEED: real := 350.0

  /** The launch velocity `(cos a, sin a) * 350`; `cosSin` gives the cosine
      and sine of an angle in degrees. */
  function LaunchVelocity(t: Trajectory, cosSin: real -> (real, real)): (real, real) {
    var cs := cosSin(LaunchAngle(t));
    (cs.0 * BASE_SPEED, cs.1 * BASE_SPEED)
  }

  // ---------------------------------------------------------------------
  // Engine state

  /** The winner and the colour of the destroyed king. */
  datatype GameOver = GameOver(winner: int, kingColor: Color)

  /** The parts of the engine a tick changes. */
  datatype World = World(paddles: seq<PaddleState>, ball: BallState, pieces: seq<Piece>,
                         gameOver: Option<GameOver>, waiting: bool, pending: Option<Trajectory>)

  /** The commands for the paddles present in `cmds` (keys 0 and 1). */
  function PaddlesCommanded(ps: seq<PaddleState>, cmds: map<int, string>): (r: seq<PaddleState>)
    requires |ps| == 2
    ensures |r| == 2
  {
    [if 0 in cmds then Commanded(ps[0], cmds[0]) else ps[0],
     if 1 in cmds then Commanded(ps[1], cmds[1]) else ps[1]]
  }

  function PaddlesMoved(ps: seq<PaddleState>, dt: real, lb: real, rb: real): (r: seq<PaddleState>)
    requires |ps| == 2
    ensures |r| == 2
  {
    [Moved(ps[0], dt, lb, rb), Moved(ps[1], dt, lb, rb)]
  }

  /** Both paddles: commands first, then one clamped step. */
  function PaddlesStep(ps: seq<PaddleState>, g: BoardGeom, dt: real, cmds: map<int, string>): (r: seq<PaddleState>)
    requires |ps| == 2
    ensures |r| == 2
  {
    PaddlesMoved(PaddlesCommanded(ps, cmds), dt, g.x, g.x + g.width as real)
  }

  // ---------------------------------------------------------------------
  // Walls

  /** The four edge checks in order: left, right, top, bottom. A ball past an
      edge is put back radius-inside it and that velocity component flips. */
  function Walls(b: BallState, g: BoardGeom): (BallState, bool) {
    var (b2, sides) := SideWalls(b, g.x, g.x + g.width as real);
    var (b4, ends) := EndWalls(b2, g.y, g.y + g.height as real);
    (b4, sides || ends)
  }

  /** The left and right edge checks. */
  function SideWalls(b: BallState, left: real, right: real): (BallState, bool) {
    var c1 := b.x - b.radius < left;
    var b1 := WallX(b, c1, left + b.radius);
    var c2 := b1.x + b.radius > right;
    (WallX(b1, c2, right - b.radius), c1 || c2)
  }

  /** The top and bottom edge checks. */
  function EndWalls(b: BallState, top: real, bottom: real): (BallState, bool) {
    var c3 := b.y - b.radius < top;
    var b3 := WallY(b, c3, top + b.radius);
    var c4 := b3.y + b.radius > bottom;
    (WallY(b3, c4, bottom - b.radius), c3 || c4)
  }

  /** A crossed vertical edge: the ball moves to `x` and `dx` flips. */
  function WallX(b: BallState, crossed: bool, x: real): BallState {
    if crossed then b.(x := x, dx := -b.dx) else b
  }

  /** A crossed horizontal edge: the ball moves to `y` and `dy` flips. */
  function WallY(b: BallState, crossed: bool, y: real): BallState {
    if crossed then b.(y := y, dy := -b.dy) else b
  }

  /** On a board at least a ball's diameter wide and high: afterwards the
      ball lies radius-inside every edge; a ball that crossed an edge sits
      exactly radius-inside it with that component negated; an axis whose
      edges were not crossed is untouched; the flag says whether any edge
      was crossed; and size, colour, speed and flags never change. */
  lemma WallsReflect(b: BallState, g: BoardGeom)
    requires 0.0 <= b.radius
    requires 2.0 * b.radius <= g.width as real && 2.0 * b.radius <= g.height as real
    ensures var (w, c) := Walls(b, g);
            && g.x + b.radius <= w.x <= g.x + g.width as real - b.radius
            && g.y + b.radius <= w.y <= g.y + g.height as real - b.radius
    ensures var (w, c) := Walls(b, g);
            && (b.x - b.radius < g.x ==> w.x == g.x + b.radius && w.dx == -b.dx)
            && (b.x + b.radius > g.x + g.width as real ==> w.x == g.x + g.width as real - b.radius && w.dx == -b.dx)
            && (g.x <= b.x - b.radius && b.x + b.radius <= g.x + g.width as real ==> w.x == b.x && w.dx == b.dx)
    ensures var (w, c) := Walls(b, g);
            && (b.y - b.radius < g.y ==> w.y == g.y + b.radius && w.dy == -b.dy)
            && (b.y + b.radius > g.y + g.height as real ==> w.y == g.y + g.height as real - b.radius && w.dy == -b.dy)
            && (g.y <= b.y - b.radius && b.y + b.radius <= g.y + g.height as real ==> w.y == b.y && w.dy == b.dy)
    ensures var (w, c) := Walls(b, g);
            && (c <==> (b.x - b.radius < g.x || b.x + b.radius > g.x + g.width as real
                        || b.y - b.radius < g.y || b.y + b.radius > g.y + g.height as real))
            && (w.radius, w.color, w.speed, w.specialReady, w.specialActive)
               == (b.radius, b.color, b.speed, b.specialReady, b.specialActive)
  {
  }

  // ---------------------------------------------------------------------
  // Piece contacts

  /** The square a piece occupies. */
  function CellRect(g: BoardGeom, p: Piece): (r: Rect)
    ensures r.right - r.left == g.cellSize as real && r.bottom - r.top == g.cellSize as real
  {
    var cx := g.x + (p.col as real) * (g.cellSize as real);
    var cy := g.y + (p.row as real) * (g.cellSize as real);
    Rect(cx, cy, cx + g.cellSize as real, cy + g.cellSize as real)
  }

  function MaxReal(a: real, b: real): real {
    if a >= b then a else b
  }

  function MinR(a: real, b: real): real {
    if a <= b then a else b
  }

  /** The circle-rectangle test: the point of the rectangle nearest the
      ball's centre is within one radius of it. */
  predicate Touches(b: BallState, r: Rect) {
    var nx := MaxReal(r.left, MinR(b.x, r.right));
    var ny := MaxReal(r.top, MinR(b.y, r.bottom));
    var dx := b.x - nx;
    var dy := b.y - ny;
    dx * dx + dy * dy <= b.radius * b.radius
  }

  lemma SquareBound(d: real, r: real)
    requires 0.0 <= r && d * d <= r * r
    ensures -r <= d <= r
  {
    assert (d - r) * (d + r) == d * d - r * r;
    if d > r {
      MulPos(d - r, d + r);
    } else if d < -r {
      assert (-d - r) * (-d + r) == d * d - r * r;
      MulPos(-d - r, -d + r);
    }
  }

  lemma MulPos(a: real, b: real)
    requires a > 0.0 && b > 0.0
    ensures a * b > 0.0
  {
  }

  /** A ball whose centre lies in the rectangle touches it; a touching ball's
      centre lies within one radius of the rectangle on both axes. */
  lemma TouchesMeaning(b: BallState, r: Rect)
    requires 0.0 <= b.radius && r.left <= r.right && r.top <= r.bottom
    ensures r.left <= b.x <= r.right && r.top <= b.y <= r.bottom ==> Touches(b, r)
    ensures Touches(b, r) ==> r.left - b.radius <= b.x <= r.right + b.radius
                              && r.top - b.radius <= b.y <= r.bottom + b.radius
  {
    var nx := MaxReal(r.left, MinR(b.x, r.right));
    var ny := MaxReal(r.top, MinR(b.y, r.bottom));
    var dx := b.x - nx;
    var dy := b.y - ny;
    if Touches(b, r) {
      assert dx * dx <= b.radius * b.radius by {
        assert dy * dy >= 0.0;
      }
      assert dy * dy <= b.radius * b.radius by {
        assert dx * dx >= 0.0;
      }
      SquareBound(dx, b.radius);
      SquareBound(dy, b.radius);
    }
  }

  /** A colliding piece: its index, its cell and the ball's overlaps. */
  datatype Hit = Hit(index: nat, cell: Rect, ox: real, oy: real)

  function HitOf(b: BallState, i: nat, r: Rect): Hit {
    Hit(i, r, MinR(b.x - r.left, r.right - b.x), MinR(b.y - r.top, r.bottom - b.y))
  }

  /** The pieces of `ps` the ball touches, in list order. */
  function Contacts(b: BallState, g: BoardGeom, ps: seq<Piece>): (hs: seq<Hit>)
    ensures |hs| <= |ps|
  {
    if ps == [] then []
    else
      var rest := Contacts(b, g, ps[..|ps| - 1]);
      var r := CellRect(g, ps[|ps| - 1]);
      if Touches(b, r) then rest + [HitOf(b, |ps| - 1, r)] else rest
  }

  /** Hit indices strictly increase and stay below `n`. */
  predicate Ascending(hs: seq<Hit>, n: int) {
    (forall k :: 0 <= k < |hs| ==> hs[k].index < n)
    && forall j, k :: 0 <= j < k < |hs| ==> hs[j].index < hs[k].index
  }

  lemma IsHitAppend(hs: seq<Hit>, h: Hit, i: int)
    ensures IsHit(hs + [h], i) <==> IsHit(hs, i) || h.index == i
  {
    if IsHit(hs + [h], i) {
      var k :| 0 <= k < |hs + [h]| && (hs + [h])[k].index == i;
      if k < |hs| {
        assert hs[k] == (hs + [h])[k];
      }
    }
    if IsHit(hs, i) {
      var k :| 0 <= k < |hs| && hs[k].index == i;
      assert (hs + [h])[k] == hs[k];
    }
    if h.index == i {
      assert (hs + [h])[|hs|] == h;
    }
  }

  /** The contacts come in list order, each piece at most once. */
  lemma {:induction false} ContactsAscending(b: BallState, g: BoardGeom, ps: seq<Piece>)
    ensures Ascending(Contacts(b, g, ps), |ps|)
  {
    if ps != [] {
      var init := ps[..|ps| - 1];
      ContactsAscending(b, g, init);
    }
  }

  /** Each contact carries its piece's own cell and overlaps. */
  lemma {:induction false} ContactsCells(b: BallState, g: BoardGeom, ps: seq<Piece>)
    ensures forall k :: 0 <= k < |Contacts(b, g, ps)| ==>
              Contacts(b, g, ps)[k].index < |ps|
              && Contacts(b, g, ps)[k] == HitOf(b, Contacts(b, g, ps)[k].index, CellRect(g, ps[Contacts(b, g, ps)[k].index]))
  {
    if ps != [] {
      var init := ps[..|ps| - 1];
      ContactsCells(b, g, init);
      assert forall i :: 0 <= i < |init| ==> init[i] == ps[i];
    }
  }

  /** The contacts are exactly the pieces the ball touches. */
  lemma {:induction false} ContactsComplete(b: BallState, g: BoardGeom, ps: seq<Piece>, i: int)
    requires 0 <= i < |ps|
    ensures Touches(b, CellRect(g, ps[i])) <==> IsHit(Contacts(b, g, ps), i)
  {
    var init := ps[..|ps| - 1];
    var rest := Contacts(b, g, init);
    var last := |ps| - 1;
    var r := CellRect(g, ps[last]);
    ContactsCells(b, g, init);
    assert !IsHit(rest, last);
    if Touches(b, r) {
      IsHitAppend(rest, HitOf(b, last, r), i);
    }
    if i < last {
      assert init[i] == ps[i];
      ContactsComplete(b, g, init, i);
    }
  }

  // ---------------------------------------------------------------------
  // Bounce

  function SumOx(hs: seq<Hit>): real {
    if hs == [] then 0.0 else SumOx(hs[..|hs| - 1]) + hs[|hs| - 1].ox
  }

  function SumOy(hs: seq<Hit>): real {
    if hs == [] then 0.0 else SumOy(hs[..|hs| - 1]) + hs[|hs| - 1].oy
  }

  function SumCx(hs: seq<Hit>): real {
    if hs == [] then 0.0 else SumCx(hs[..|hs| - 1]) + (hs[|hs| - 1].cell.left + hs[|hs| - 1].cell.right) / 2.0
  }

  function SumCy(hs: seq<Hit>): real {
    if hs == [] then 0.0 else SumCy(hs[..|hs| - 1]) + (hs[|hs| - 1].cell.top + hs[|hs| - 1].cell.bottom) / 2.0
  }

  /** The leftmost left edge of the hit cells. */
  function Leftmost(hs: seq<Hit>): (m: real)
    requires hs != []
    ensures forall k :: 0 <= k < |hs| ==> m <= hs[k].cell.left
    ensures exists k :: 0 <= k < |hs| && m == hs[k].cell.left
  {
    if |hs| == 1 then hs[0].cell.left
    else
      var m := Leftmost(hs[..|hs| - 1]);
      assert forall k :: 0 <= k < |hs| - 1 ==> hs[..|hs| - 1][k] == hs[k];
      MinR(m, hs[|hs| - 1].cell.left)
  }

  function Rightmost(hs: seq<Hit>): (m: real)
    requires hs != []
    ensures forall k :: 0 <= k < |hs| ==> hs[k].cell.right <= m
    ensures exists k :: 0 <= k < |hs| && m == hs[k].cell.right
  {
    if |hs| == 1 then hs[0].cell.right
    else
      var m := Rightmost(hs[..|hs| - 1]);
      assert forall k :: 0 <= k < |hs| - 1 ==> hs[..|hs| - 1][k] == hs[k];
      MaxReal(m, hs[|hs| - 1].cell.right)
  }

  function Topmost(hs: seq<Hit>): (m: real)
    requires hs != []
    ensures forall k :: 0 <= k < |hs| ==> m <= hs[k].cell.top
    ensures exists k :: 0 <= k < |hs| && m == hs[k].cell.top
  {
    if |hs| == 1 then hs[0].cell.top
    else
      var m := Topmost(hs[..|hs| - 1]);
      assert forall k :: 0 <= k < |hs| - 1 ==> hs[..|hs| - 1][k] == hs[k];
      MinR(m, hs[|hs| - 1].cell.top)
  }

  function Bottommost(hs: seq<Hit>): (m: real)
    requires hs != []
    ensures forall k :: 0 <= k < |hs| ==> hs[k].cell.bottom <= m
    ensures exists k :: 0 <= k < |hs| && m == hs[k].cell.bottom
  {
    if |hs| == 1 then hs[0].cell.bottom
    else
      var m := Bottommost(hs[..|hs| - 1]);
      assert forall k :: 0 <= k < |hs| - 1 ==> hs[..|hs| - 1][k] == hs[k];
      MaxReal(m, hs[|hs| - 1].cell.bottom)
  }

  /** The axis of the combined response: `x` when the summed x-overlap is
      the smaller. */
  predicate BounceOnX(hs: seq<Hit>) {
    SumOx(hs) < SumOy(hs)
  }

  /** The combined response to a set of contacts: on the chosen axis the
      ball goes to the side of the contacts' average centre it is on, one
      radius beyond the outermost cell edge, and that component flips. */
  function Bounce(b: BallState, hs: seq<Hit>): BallState
    requires hs != []
  {
    var n := |hs| as real;
    if BounceOnX(hs) then
      var avgCx := SumCx(hs) / n;
      var x := if b.x < avgCx then Leftmost(hs) - b.radius else Rightmost(hs) + b.radius;
      b.(x := x, dx := -b.dx)
    else
      var avgCy := SumCy(hs) / n;
      var y := if b.y < avgCy then Topmost(hs) - b.radius else Bottommost(hs) + b.radius;
      b.(y := y, dy := -b.dy)
  }

  /** Exactly one velocity component flips, the one of the chosen axis; the
      other coordinate and component are kept; and on the chosen axis the
      ball ends at least one radius clear of every hit cell. */
  lemma BounceOneAxis(b: BallState, hs: seq<Hit>)
    requires hs != []
    ensures var c := Bounce(b, hs);
            (BounceOnX(hs) ==>
               (c.dx == -b.dx && c.dy == b.dy && c.y == b.y
                && ((forall k :: 0 <= k < |hs| ==> c.x + b.radius <= hs[k].cell.left)
                    || (forall k :: 0 <= k < |hs| ==> hs[k].cell.right + b.radius <= c.x))))
    ensures var c := Bounce(b, hs);
            (!BounceOnX(hs) ==>
               (c.dy == -b.dy && c.dx == b.dx && c.x == b.x
                && ((forall k :: 0 <= k < |hs| ==> c.y + b.radius <= hs[k].cell.top)
                    || (forall k :: 0 <= k < |hs| ==> hs[k].cell.bottom + b.radius <= c.y))))
    ensures Bounce(b, hs).radius == b.radius && Bounce(b, hs).color == b.color
  {
  }

  // ---------------------------------------------------------------------
  // Damage

  const HIT_COOLDOWN: real := 0.12

  /** One hit at time `now`: outside the cooldown a piece loses one HP,
      never going below 0, and remembers the time. */
  function Damaged(p: Piece, now: real): (q: Piece)
    ensures now - p.lastHit >= HIT_COOLDOWN ==> q.hp == (if p.hp >= 1 then p.hp - 1 else 0) && q.lastHit == now
    ensures now - p.lastHit < HIT_COOLDOWN ==> q == p
    ensures (q.kind, q.color, q.col, q.row, q.maxHp) == (p.kind, p.color, p.col, p.row, p.maxHp)
  {
    if now - p.lastHit >= HIT_COOLDOWN then
      var hp := p.hp - 1;
      p.(hp := if hp < 0 then 0 else hp, lastHit := now)
    else p
  }

  /** Every hit applied in turn to the piece it names. */
  function DamageAll(ps: seq<Piece>, hs: seq<Hit>, now: real): (r: seq<Piece>)
    ensures |r| == |ps|
  {
    if hs == [] then ps
    else
      var q := DamageAll(ps, hs[..|hs| - 1], now);
      var i := hs[|hs| - 1].index;
      if i < |q| then q[i := Damaged(q[i], now)] else q
  }

  predicate IsHit(hs: seq<Hit>, i: int) {
    exists k :: 0 <= k < |hs| && hs[k].index == i
  }

  /** Each hit piece is damaged once, every other piece is unchanged. */
  lemma {:induction false} DamageAllAt(ps: seq<Piece>, hs: seq<Hit>, now: real, i: int)
    requires Ascending(hs, |ps|) && 0 <= i < |ps|
    ensures DamageAll(ps, hs, now)[i] == if IsHit(hs, i) then Damaged(ps[i], now) else ps[i]
  {
    if hs != [] {
      var init := hs[..|hs| - 1];
      assert Ascending(init, |ps|);
      DamageAllAt(ps, init, now, i);
      var last := hs[|hs| - 1].index;
      if i == last {
        assert !IsHit(init, i) by {
          forall k | 0 <= k < |init| ensures init[k].index != i {
            assert init[k] == hs[k];
          }
        }
      } else {
        assert IsHit(hs, i) ==> IsHit(init, i) by {
          if IsHit(hs, i) {
            var k :| 0 <= k < |hs| && hs[k].index == i;
            assert k < |hs| - 1 && init[k] == hs[k];
          }
        }
        assert IsHit(init, i) ==> IsHit(hs, i) by {
          if IsHit(init, i) {
            var k :| 0 <= k < |init| && init[k].index == i;
            assert hs[k] == init[k];
          }
        }
      }
    }
  }

  // ---------------------------------------------------------------------
  // Removal and game over

  /** `list.remove(x)`: drop the first element equal to `x`, if any. */
  function RemoveFirst<T(==)>(s: seq<T>, x: T): (r: seq<T>)
    ensures x in s ==> |r| == |s| - 1
    ensures x !in s ==> r == s
  {
    if s == [] then []
    else if s[0] == x then s[1..]
    else [s[0]] + RemoveFirst(s[1..], x)
  }

  lemma {:induction false} RemoveFirstMultiset<T>(s: seq<T>, x: T)
    requires x in s
    ensures multiset(RemoveFirst(s, x)) == multiset(s) - multiset{x}
  {
    if s[0] == x {
      assert s == [s[0]] + s[1..];
    } else {
      RemoveFirstMultiset(s[1..], x);
      assert s == [s[0]] + s[1..];
    }
  }

  /** The side that wins when a king of colour `c` falls: 0 (top) for the
      white king, 1 (bottom) for the black one. */
  function Winner(c: Color): (w: int)
    ensures c == White ==> w == 0
    ensures c == Black ==> w == 1
  {
    if c == White then 0 else 1
  }

  /** The destroyed pieces among the hits, in hit order: the hit pieces with
      no HP left, read from the damaged list. */
  function Dead(dps: seq<Piece>, hs: seq<Hit>): seq<Piece> {
    if hs == [] then []
    else
      var rest := Dead(dps, hs[..|hs| - 1]);
      var i := hs[|hs| - 1].index;
      if i < |dps| && dps[i].hp <= 0 then rest + [dps[i]] else rest
  }

  /** The game-over record after a sequence of destroyed pieces: the last
      destroyed king decides; without one the record is kept. */
  function KingLoss(dead: seq<Piece>, go: Option<GameOver>): Option<GameOver> {
    if dead == [] then go
    else
      var last := dead[|dead| - 1];
      if last.kind == King then Some(GameOver(Winner(last.color), last.color))
      else KingLoss(dead[..|dead| - 1], go)
  }

  /** After hits `hs` on the damaged list `dps`: the remaining pieces and the
      game-over record, each destroyed piece removed by value in hit order. */
  function Removal(dps: seq<Piece>, hs: seq<Hit>, go: Option<GameOver>): (seq<Piece>, Option<GameOver>) {
    if hs == [] then (dps, go)
    else
      var (rest, g) := Removal(dps, hs[..|hs| - 1], go);
      var i := hs[|hs| - 1].index;
      if i < |dps| && dps[i].hp <= 0 then
        var p := dps[i];
        (RemoveFirst(rest, p), if p.kind == King then Some(GameOver(Winner(p.color), p.color)) else g)
      else (rest, g)
  }

  /** The destroyed pieces are distinct members of the list: as a multiset
      they are contained in the pieces before index `m`. */
  lemma {:induction false} DeadContained(dps: seq<Piece>, hs: seq<Hit>, m: nat)
    requires Ascending(hs, m) && m <= |dps|
    ensures multiset(Dead(dps, hs)) <= multiset(dps[..m])
  {
    if hs != [] {
      var init := hs[..|hs| - 1];
      var i := hs[|hs| - 1].index;
      AscendingBelowLast(hs, m);
      DeadContained(dps, init, i);
      DeadSnoc(dps, hs);
      PrefixSnoc(dps, i, m);
      SubChain(multiset(Dead(dps, hs)), multiset(Dead(dps, init)), multiset(dps[..i]), multiset(dps[..m]), multiset{dps[i]});
    }
  }

  /** The hits before the last one name pieces before the last one's. */
  lemma AscendingBelowLast(hs: seq<Hit>, n: int)
    requires Ascending(hs, n) && hs != []
    ensures Ascending(hs[..|hs| - 1], hs[|hs| - 1].index)
  {
    var init := hs[..|hs| - 1];
    forall k | 0 <= k < |init| ensures init[k].index < hs[|hs| - 1].index {
      assert init[k] == hs[k];
    }
  }

  /** The last hit adds at most its own piece to the destroyed ones. */
  lemma DeadSnoc(dps: seq<Piece>, hs: seq<Hit>)
    requires hs != [] && hs[|hs| - 1].index < |dps|
    ensures multiset(Dead(dps, hs)) <= multiset(Dead(dps, hs[..|hs| - 1])) + multiset{dps[hs[|hs| - 1].index]}
  {
    var i := hs[|hs| - 1].index;
    if dps[i].hp <= 0 {
      assert Dead(dps, hs) == Dead(dps, hs[..|hs| - 1]) + [dps[i]];
    }
  }

  /** A prefix and the element after it lie within any longer prefix. */
  lemma PrefixSnoc<T>(s: seq<T>, i: nat, m: nat)
    requires i < m <= |s|
    ensures multiset(s[..i]) + multiset{s[i]} <= multiset(s[..m])
  {
    assert s[..m] == s[..i] + [s[i]] + s[i + 1..m];
  }

  /** Multiset inclusion through one added element. */
  lemma SubChain<T>(d: multiset<T>, a: multiset<T>, p: multiset<T>, q: multiset<T>, x: multiset<T>)
    requires d <= a + x && a <= p && p + x <= q
    ensures d <= q
  {
  }

  lemma AscendingPrefix(hs: seq<Hit>, n: int)
    requires Ascending(hs, n) && hs != []
    ensures Ascending(hs[..|hs| - 1], n)
  {
    var init := hs[..|hs| - 1];
    assert forall k :: 0 <= k < |init| ==> init[k] == hs[k];
  }

  /** Removal takes out exactly the destroyed pieces, one copy each. */
  lemma {:induction false} RemovalExact(dps: seq<Piece>, hs: seq<Hit>, go: Option<GameOver>)
    requires Ascending(hs, |dps|)
    ensures multiset(Dead(dps, hs)) <= multiset(dps)
    ensures multiset(Removal(dps, hs, go).0) == multiset(dps) - multiset(Dead(dps, hs))
  {
    assert multiset(Dead(dps, hs)) <= multiset(dps) by {
      assert dps[..|dps|] == dps;
      DeadContained(dps, hs, |dps|);
    }
    if hs != [] {
      var init := hs[..|hs| - 1];
      AscendingPrefix(hs, |dps|);
      RemovalExact(dps, init, go);
      var i := hs[|hs| - 1].index;
      if dps[i].hp <= 0 {
        var p := dps[i];
        var rest := Removal(dps, init, go).0;
        var dead := Dead(dps, init);
        assert multiset(Dead(dps, hs)) == multiset(dead) + multiset{p} by {
          assert Dead(dps, hs) == dead + [p];
        }
        MinusOneMore(multiset(dps), multiset(dead), p);
        assert p in rest;
        RemoveFirstMultiset(rest, p);
      }
    }
  }

  /** Taking away one more element that is still present. */
  lemma MinusOneMore<T>(a: multiset<T>, d: multiset<T>, p: T)
    requires d + multiset{p} <= a
    ensures p in a - d
    ensures (a - d) - multiset{p} == a - (d + multiset{p})
  {
  }

  /** The game-over record after removal is decided by the destroyed pieces alone. */
  lemma {:induction false} RemovalKing(dps: seq<Piece>, hs: seq<Hit>, go: Option<GameOver>)
    ensures Removal(dps, hs, go).1 == KingLoss(Dead(dps, hs), go)
  {
    if hs != [] {
      var init := hs[..|hs| - 1];
      RemovalKing(dps, init, go);
      var i := hs[|hs| - 1].index;
      var dead := Dead(dps, init);
      if i < |dps| && dps[i].hp <= 0 {
        assert (dead + [dps[i]])[..|dead|] == dead;
      }
    }
  }

  /** The last destroyed king decides the winner; with no destroyed king the
      record is kept; once set, it is never cleared. */
  lemma {:induction false} KingLossMeaning(dead: seq<Piece>, go: Option<GameOver>)
    ensures (forall k :: 0 <= k < |dead| ==> dead[k].kind != King) ==> KingLoss(dead, go) == go
    ensures (exists k :: 0 <= k < |dead| && dead[k].kind == King) ==>
              exists k :: 0 <= k < |dead| && dead[k].kind == King
                          && KingLoss(dead, go) == Some(GameOver(Winner(dead[k].color), dead[k].color))
    ensures go.Some? ==> KingLoss(dead, go).Some?
  {
    if dead != [] {
      var init := dead[..|dead| - 1];
      KingLossMeaning(init, go);
      assert forall k :: 0 <= k < |init| ==> init[k] == dead[k];
      if dead[|dead| - 1].kind != King {
        if exists k :: 0 <= k < |dead| && dead[k].kind == King {
          var k :| 0 <= k < |dead| && dead[k].kind == King;
          assert k < |init| && init[k].kind == King;
        }
      }
    }
  }

  // ---------------------------------------------------------------------
  // The whole tick

  /** The full step once the ball is in play. */
  function Play(w: World, g: BoardGeom, dt: real, cmds: map<int, string>, now: real): (World, bool)
    requires |w.paddles| == 2
  {
    var ps := PaddlesStep(w.paddles, g, dt, cmds);
    var (b, wall) := Walls(Advanced(w.ball, dt), g);
    var hs := Contacts(b, g, w.pieces);
    if hs == [] then (w.(paddles := ps, ball := b), wall)
    else
      var dps := DamageAll(w.pieces, hs, now);
      var (rest, go) := Removal(dps, hs, w.gameOver);
      (w.(paddles := ps, ball := Bounce(b, hs), pieces := rest, gameOver := go), true)
  }

  /** One call of `update(dt, player_commands)`: while waiting, a missing
      (or null) trajectory moves only the paddles; an accepted one ends the
      wait, launches the ball and plays the tick; a refused one clears the
      pending choice and plays the tick while still waiting. */
  function Step(w: World, g: BoardGeom, dt: real, cmds: map<int, string>, traj: Value,
                now: real, cosSin: real -> (real, real)): (World, bool)
    requires |w.paddles| == 2
  {
    if !w.waiting then Play(w, g, dt, cmds, now)
    else if traj.Null? then (w.(paddles := PaddlesStep(w.paddles, g, dt, cmds)), false)
    else
      match AcceptTrajectory(traj)
      case Some(t) =>
        var v := LaunchVelocity(t, cosSin);
        Play(w.(waiting := false, pending := Some(t), ball := w.ball.(dx := v.0, dy := v.1)), g, dt, cmds, now)
      case None =>
        Play(w.(pending := None), g, dt, cmds, now)
  }

  /** While waiting with no trajectory only the paddles change. */
  lemma WaitingMovesOnlyPaddles(w: World, g: BoardGeom, dt: real, cmds: map<int, string>, now: real,
                                cosSin: real -> (real, real))
    requires |w.paddles| == 2 && w.waiting
    ensures var (w2, c) := Step(w, g, dt, cmds, Null, now, cosSin);
            && !c
            && w2 == w.(paddles := w2.paddles)
            && w2.paddles == PaddlesStep(w.paddles, g, dt, cmds)
  {
  }

  /** While waiting, a trajectory clears the wait exactly when it is
      accepted; an accepted one becomes the pending choice, a refused one
      clears it. */
  lemma TrajectoryGate(w: World, g: BoardGeom, dt: real, cmds: map<int, string>, traj: Value, now: real,
                       cosSin: real -> (real, real))
    requires |w.paddles| == 2 && w.waiting && !traj.Null?
    ensures var (w2, c) := Step(w, g, dt, cmds, traj, now, cosSin);
            && (w2.waiting <==> AcceptTrajectory(traj).None?)
            && w2.pending == AcceptTrajectory(traj)
  {
  }

  /** A tick never adds pieces, never clears the game-over record and, when
      a king falls, records the opposite side as winner. */
  lemma {:induction false} PlayMonotone(w: World, g: BoardGeom, dt: real, cmds: map<int, string>, now: real)
    requires |w.paddles| == 2
    ensures var (w2, c) := Play(w, g, dt, cmds, now);
            && |w2.pieces| <= |w.pieces|
            && (w.gameOver.Some? ==> w2.gameOver.Some?)
            && (w2.gameOver != w.gameOver ==>
                  exists p :: p in w.pieces && p.kind == King && w2.gameOver == Some(GameOver(Winner(p.color), p.color)))
  {
    var (b, wall) := Walls(Advanced(w.ball, dt), g);
    var hs := Contacts(b, g, w.pieces);
    if hs != [] {
      ContactsAscending(b, g, w.pieces);
      HitsMonotone(w.pieces, hs, now, w.gameOver);
      var (rest, go) := Removal(DamageAll(w.pieces, hs, now), hs, w.gameOver);
      assert Play(w, g, dt, cmds, now).0 == w.(paddles := PaddlesStep(w.paddles, g, dt, cmds), ball := Bounce(b, hs),
                                                pieces := rest, gameOver := go);
    }
  }

  /** Damage then removal for ascending hits: never more pieces, a recorded
      result stays recorded, and a new result is a fallen king's. */
  lemma HitsMonotone(ps: seq<Piece>, hs: seq<Hit>, now: real, go: Option<GameOver>)
    requires Ascending(hs, |ps|)
    ensures var (rest, go2) := Removal(DamageAll(ps, hs, now), hs, go);
            && |rest| <= |ps|
            && (go.Some? ==> go2.Some?)
            && (go2 != go ==> exists p :: p in ps && p.kind == King && go2 == Some(GameOver(Winner(p.color), p.color)))
  {
    var dps := DamageAll(ps, hs, now);
    RemovalExact(dps, hs, go);
    RemovalKing(dps, hs, go);
    var dead := Dead(dps, hs);
    var rest := Removal(dps, hs, go).0;
    assert |rest| <= |dps| by {
      assert |multiset(rest)| == |multiset(dps)| - |multiset(dead)|;
    }
    KingLossMeaning(dead, go);
    HitsKing(ps, hs, now, go);
  }

  lemma HitsKing(ps: seq<Piece>, hs: seq<Hit>, now: real, go: Option<GameOver>)
    requires Ascending(hs, |ps|)
    ensures var go2 := Removal(DamageAll(ps, hs, now), hs, go).1;
            go2 != go ==> exists p :: p in ps && p.kind == King && go2 == Some(GameOver(Winner(p.color), p.color))
  {
    var dps := DamageAll(ps, hs, now);
    RemovalExact(dps, hs, go);
    RemovalKing(dps, hs, go);
    var dead := Dead(dps, hs);
    KingLossMeaning(dead, go);
    var go2 := KingLoss(dead, go);
    if go2 != go {
      var k :| 0 <= k < |dead| && dead[k].kind == King
               && go2 == Some(GameOver(Winner(dead[k].color), dead[k].color));
      assert dead[k] in multiset(dead);
      assert dead[k] in multiset(dps);
      var i :| 0 <= i < |dps| && dps[i] == dead[k];
      DamageAllAt(ps, hs, now, i);
      assert ps[i].kind == King && ps[i].color == dead[k].color;
      assert ps[i] in ps;
    }
  }
}
