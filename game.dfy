/** The game engine object (game.py, class `Game`): board configuration,
    piece creation and loading, one tick of `update`, the state snapshot
    and `reset_game`. Each method that changes the engine is specified by
    the pure definitions of modules Board and Physics. */
module Engine {
  import opened Values
  import opened Board
  import opened Entities
  import opened Physics

  /** The parts of the template game file the engine reads: the optional
      `hp_map` and `scores` entries and the piece records. */
  datatype Template = Template(hpMap: Option<HpMap>, scores: Option<seq<int>>, pieces: seq<PieceRecord>)

  /** The snapshot broadcast to the clients. */
  datatype Snapshot = Snapshot(width: int, height: int, board: BoardGeom,
                               ball: map<string, Value>, paddles: seq<map<string, Value>>,
                               pieces: seq<PieceView>, scores: seq<int>, timestamp: real,
                               gameOver: Option<GameOver>, waiting: bool)

  /** The match data of a game: what a reset without a readable template
      leaves as it was. */
  datatype MatchData = MatchData(scores: seq<int>, pieces: seq<Piece>, hpMap: HpMap,
                                 gameOver: Option<GameOver>, waiting: bool, pending: Option<Trajectory>)

  const PADDLE_SPEED: real := 350.0
  const BALL_SPEED: real := 350.0

  // ---------------------------------------------------------------------
  // Hit points of generated pieces

  /** The HP map `_init_pieces` evidently means to use: the map already
      provided, and the built-in one only when none was. */
  function InitHp(current: HpMap): (m: HpMap)
    ensures current != map[] ==> m == current
    ensures current == map[] ==> m == DefaultHp
  {
    if current == map[] then DefaultHp else current
  }

  /** The map in place when a reduced board is generated from a template:
      the template's map, or the engine's current one if the template has
      none (or an empty one). */
  function ReducedHp(template: HpMap, current: HpMap): HpMap {
    InitHp(if template != map[] then template else current)
  }

  /** The pieces generated for a reduced board from a template, as written:
      `_init_pieces` installs the built-in map first (game.py:139), whatever
      map the template provided. */
  function ReducedPiecesAsWritten(cols: int): seq<Piece>
    requires AllowedCols(cols)
  {
    Layout(Majors(cols), DefaultHp, cols)
  }

  /** The pieces a game created from template `t` holds on a board of `cols`
      columns, with `hp` the map installed: on the full board each template
      record loaded in order; on a reduced board the generated layout. */
  ghost predicate TemplatePieces(t: Template, cols: int, hp: HpMap, pieces: seq<Piece>)
    requires AllowedCols(cols)
  {
    && (cols == COLS ==>
          |pieces| == |t.pieces| && forall i :: 0 <= i < |t.pieces| ==> pieces[i] == Load(t.pieces[i], hp))
    && (cols != COLS ==> pieces == ReducedPiecesAsWritten(cols))
  }

  /** As written, a template that gives pawns 3 HP still yields 2-HP pawns on
      a 4-column board: the template's map is overwritten. */
  lemma TemplateHpIgnoredAsWritten()
    ensures var t := map[Pawn := 3];
            ReducedPiecesAsWritten(4)[1].kind == Pawn
            && ReducedPiecesAsWritten(4)[1].hp == 2 != HpFor(t, Pawn)
  {
    var t := map[Pawn := 3];
    InitialLayout(4, DefaultHp, 1);
    LayoutAt(Majors(4), DefaultHp, 4, 1);
  }

  /** Corrected, every generated piece takes its HP from the template's map
      whenever the template provides one. */
  lemma TemplateHpUsed(cols: int, template: HpMap, current: HpMap, i: int)
    requires AllowedCols(cols) && template != map[] && 0 <= i < 4 * cols
    ensures var ps := Layout(Majors(cols), ReducedHp(template, current), cols);
            |ps| == 4 * cols && ps[i].hp == ps[i].maxHp == HpFor(template, ps[i].kind)
  {
    InitialLayout(cols, ReducedHp(template, current), i);
  }

  // ---------------------------------------------------------------------
  // Piece records

  /** The defaulting loop applied to template records for the full board. */
  method FillRecords(records: seq<PieceRecord>, m: HpMap) returns (filled: seq<PieceRecord>)
    ensures |filled| == |records|
    ensures forall i :: 0 <= i < |records| ==> filled[i] == FillHp(records[i], m)
  {
    filled := [];
    var i := 0;
    while i < |records|
      invariant 0 <= i <= |records| && |filled| == i
      invariant forall k :: 0 <= k < i ==> filled[k] == FillHp(records[k], m)
    {
      var p := records[i];
      var defaultHp := HpFor(m, p.kind);
      if p.maxHp.None? {
        p := p.(maxHp := Some(defaultHp));
      }
      if p.hp.None? {
        p := p.(hp := Some(p.maxHp.GetOr(defaultHp)));
      }
      filled := filled + [p];
      i := i + 1;
    }
  }

  /** The normalisation loop of `_load_db`: every record with its missing
      `max_hp`, `hp` and `last_hit` filled in. */
  method NormalisePieces(records: seq<PieceRecord>, m: HpMap) returns (loaded: seq<Piece>)
    ensures |loaded| == |records|
    ensures forall i :: 0 <= i < |records| ==> loaded[i] == Load(records[i], m)
  {
    loaded := [];
    var i := 0;
    while i < |records|
      invariant 0 <= i <= |records| && |loaded| == i
      invariant forall k :: 0 <= k < i ==> loaded[k] == Load(records[k], m)
    {
      var pc := records[i];
      var defaultHp := HpFor(m, pc.kind);
      var maxHp := if pc.maxHp.Some? then pc.maxHp.value else defaultHp;
      var hp := if pc.hp.Some? then pc.hp.value else maxHp;
      var lastHit := if pc.lastHit.Some? then pc.lastHit.value else 0.0;
      loaded := loaded + [Piece(pc.kind, pc.color, pc.col, pc.row, hp, maxHp, lastHit)];
      i := i + 1;
    }
  }

  /** The game file written for a piece list and read back. */
  function Records(ps: seq<Piece>): (rs: seq<PieceRecord>)
    ensures |rs| == |ps|
    ensures forall i :: 0 <= i < |ps| ==> rs[i] == ToRecord(ps[i])
  {
    seq(|ps|, i requires 0 <= i < |ps| => ToRecord(ps[i]))
  }

  /** The top paddle of a new game: centred, between the pawn rows in the upper half. */
  function TopStart(cols: int): PaddleState {
    var b := MakeBoard(cols);
    var z := EntitySizes(cols);
    PaddleState((WIDTH as real) / 2.0, TopPaddleY(b, z.padH), z.padW, z.padH, "#00CCFF", PADDLE_SPEED, 0.0, "stop")
  }

  /** The bottom paddle of a new game: centred, between the pawn rows in the lower half. */
  function BottomStart(cols: int): PaddleState {
    var b := MakeBoard(cols);
    var z := EntitySizes(cols);
    PaddleState((WIDTH as real) / 2.0, BottomPaddleY(b, z.padH), z.padW, z.padH, "#FFCC00", PADDLE_SPEED, 0.0, "stop")
  }

  /** The two paddles `Game()` and `reset_game` create for `cols` columns. */
  method NewPaddles(cols: int) returns (top: Paddle, bottom: Paddle)
    ensures fresh(top) && fresh(bottom) && top != bottom
    ensures top.State() == TopStart(cols) && bottom.State() == BottomStart(cols)
  {
    var b := MakeBoard(cols);
    var z := EntitySizes(cols);
    top := new Paddle((WIDTH as real) / 2.0, TopPaddleY(b, z.padH), z.padW, z.padH, "#00CCFF", PADDLE_SPEED);
    bottom := new Paddle((WIDTH as real) / 2.0, BottomPaddleY(b, z.padH), z.padW, z.padH, "#FFCC00", PADDLE_SPEED);
  }

  /** Full board: loading the filled-in template records is loading the
      template's records. */
  lemma ReloadFilled(t: Template, filled: seq<PieceRecord>, loaded: seq<Piece>, m: HpMap)
    requires |filled| == |t.pieces| && forall i :: 0 <= i < |t.pieces| ==> filled[i] == FillHp(t.pieces[i], m)
    requires |loaded| == |filled| && forall i :: 0 <= i < |filled| ==> loaded[i] == Load(filled[i], m)
    ensures TemplatePieces(t, COLS, m, loaded)
  {
    forall i | 0 <= i < |t.pieces| ensures loaded[i] == Load(t.pieces[i], m) {
      RecordRoundTrip(Load(t.pieces[i], m), t.pieces[i], m);
    }
  }

  /** Reduced board: loading the records written for the generated layout
      gives that layout back. */
  lemma ReloadWritten(t: Template, cols: int, loaded: seq<Piece>, m: HpMap)
    requires AllowedCols(cols) && cols != COLS
    requires var ps := ReducedPiecesAsWritten(cols);
             |loaded| == |ps| && forall i :: 0 <= i < |ps| ==> loaded[i] == Load(Records(ps)[i], m)
    ensures TemplatePieces(t, cols, m, loaded)
  {
    var ps := ReducedPiecesAsWritten(cols);
    forall i | 0 <= i < |ps| ensures loaded[i] == ps[i] {
      RecordRoundTrip(ps[i], ToRecord(ps[i]), m);
    }
  }

  /** One more column appended to a prefix of the layout. */
  lemma LayoutStep(majors: seq<PieceType>, hp: HpMap, c: nat, prefix: seq<Piece>)
    requires c < |majors|
    ensures prefix + Layout(majors, hp, c) + ColumnPieces(majors[c], c, hp) == prefix + Layout(majors, hp, c + 1)
  {
  }

  /** The contacts of one more piece. */
  lemma ContactsSnoc(b: BallState, g: BoardGeom, ps: seq<Piece>, i: nat)
    requires i < |ps|
    ensures Contacts(b, g, ps[..i + 1]) ==
            Contacts(b, g, ps[..i]) + if Touches(b, CellRect(g, ps[i])) then [HitOf(b, i, CellRect(g, ps[i]))] else []
  {
    assert ps[..i + 1][..i] == ps[..i];
  }

  // ---------------------------------------------------------------------
  // The engine

  class Game {
    var activeCols: int
    var board: BoardGeom
    var paddles: seq<Paddle>
    var ball: Ball
    var scores: seq<int>
    var pieces: seq<Piece>
    var hpMap: HpMap
    var gameOver: Option<GameOver>
    var waiting: bool
    var pending: Option<Trajectory>

    ghost predicate Valid()
      reads this
    {
      |paddles| == 2 && paddles[0] != paddles[1] && AllowedCols(activeCols) && board == MakeBoard(activeCols)
    }

    ghost function PaddleStates(): seq<PaddleState>
      reads this, paddles
      requires |paddles| == 2
    {
      [paddles[0].State(), paddles[1].State()]
    }

    /** The state a tick reads and changes. */
    ghost function Current(): World
      reads this, ball, paddles
      requires |paddles| == 2
    {
      Physics.World(PaddleStates(), ball.State(), pieces, gameOver, waiting, pending)
    }

    /** The geometry and the two new paddles of a board of `cols` columns. */
    ghost predicate PaddlesConfigured(cols: int)
      reads this, paddles
      requires |paddles| == 2
    {
      && activeCols == cols && board == MakeBoard(cols)
      && paddles[0].State() == TopStart(cols)
      && paddles[1].State() == BottomStart(cols)
    }

    /** The paddles and ball of a board of `cols` columns, the ball heading
        along `dir`. */
    ghost predicate Configured(cols: int, dir: (real, real))
      reads this, ball, paddles
      requires |paddles| == 2
    {
      var z := EntitySizes(cols);
      && PaddlesConfigured(cols)
      && ball.State() == BallState((WIDTH as real) / 2.0, (HEIGHT as real) / 2.0,
                                   BALL_SPEED * dir.0, BALL_SPEED * dir.1, z.ballRadius as real,
                                   "#FFFFFF", BALL_SPEED, false, false)
    }

    /** A game restarted from the template `t` on a board of `cols` columns:
        the new geometry and paddles, the ball at rest in the centre, the
        template's HP map, scores and pieces, no game over, and a trajectory
        choice awaited again. */
    ghost predicate Restarted(cols: int, t: Template)
      reads this, ball, paddles
      requires |paddles| == 2
    {
      && AllowedCols(cols) && PaddlesConfigured(cols)
      && ball.State() == BallState((WIDTH as real) / 2.0, (HEIGHT as real) / 2.0, 0.0, 0.0,
                                   EntitySizes(cols).ballRadius as real, "#FFFFFF",
                                   BALL_SPEED, false, false)
      && NewMatch(cols, t)
    }

    /** The match data of a game just started from the template `t` on a
        board of `cols` columns: the template's HP map, scores and pieces,
        no game over, and a trajectory choice awaited. */
    ghost predicate NewMatch(cols: int, t: Template)
      reads this
    {
      && AllowedCols(cols)
      && waiting && pending.None? && gameOver.None?
      && hpMap == t.hpMap.GetOr(map[])
      && scores == t.scores.GetOr([0, 0])
      && TemplatePieces(t, cols, hpMap, pieces)
    }

    ghost function Data(): MatchData
      reads this
    {
      MatchData(scores, pieces, hpMap, gameOver, waiting, pending)
    }

    /** The match data after a reset of a board of `cols` columns whose
        data was `before`: a new match with a template, `before` without. */
    ghost predicate ResetData(cols: int, template: Option<Template>, before: MatchData)
      reads this
    {
      && (template.Some? ==> NewMatch(cols, template.value))
      && (template.None? ==> Data() == before)
    }

    /** `s` is the snapshot `get_state` builds at time `now`: every field,
        each piece shown at its cell's centre. */
    ghost predicate Snapshots(s: Snapshot, now: real)
      reads this, ball, paddles
      requires |paddles| == 2
    {
      && s.board == board && s.scores == scores && s.gameOver == gameOver && s.waiting == waiting
      && s.ball == BallDict(ball.State())
      && s.paddles == [PaddleDict(paddles[0].State()), PaddleDict(paddles[1].State())]
      && |s.pieces| == |pieces|
      && (forall i :: 0 <= i < |pieces| ==> s.pieces[i] == ViewOf(board, pieces[i]))
      && s.timestamp == now && s.width == WIDTH && s.height == HEIGHT
    }

    /** What `reset_game` leaves for a board of `cols` columns: with a
        template the restarted game, without one only the new paddles and
        the ball heading along `dir`. */
    ghost predicate ResetTo(cols: int, template: Option<Template>, dir: (real, real))
      reads this, ball, paddles
      requires |paddles| == 2
    {
      && activeCols == cols
      && (template.Some? ==> Restarted(cols, template.value))
      && (template.None? ==> Configured(cols, dir))
    }

    /** `Game()`: the board for the `EXTRA_DIMENSIONS` setting `rawDims`, a
        game created from the template (or, without one, the generated
        layout), waiting for the first trajectory. `dir` stands for the
        random launch direction of the new ball. */
    constructor(rawDims: Option<string>, template: Option<Template>, dir: (real, real))
      ensures Valid() && fresh(ball) && fresh(paddles[0]) && fresh(paddles[1])
      ensures Configured(ActiveCols(rawDims), dir)
      ensures template.Some? ==> hpMap == template.value.hpMap.GetOr(map[])
      ensures template.Some? ==> scores == template.value.scores.GetOr([0, 0])
      ensures template.Some? ==> TemplatePieces(template.value, activeCols, hpMap, pieces)
      ensures template.None? ==> scores == [0, 0] && hpMap == DefaultHp
      ensures template.None? ==> pieces == Layout(Majors(activeCols), DefaultHp, activeCols)
      ensures gameOver.None? && waiting && pending.None?
    {
      var cols := ActiveCols(rawDims);
      var b := MakeBoard(cols);
      var z := EntitySizes(cols);
      var top, bottom := NewPaddles(cols);
      activeCols := cols;
      board := b;
      paddles := [top, bottom];
      ball := new Ball((WIDTH as real) / 2.0, (HEIGHT as real) / 2.0, z.ballRadius as real, "#FFFFFF", BALL_SPEED, dir);
      scores := [0, 0];
      pieces := [];
      hpMap := map[];
      gameOver := None;
      waiting := true;
      pending := None;
      new;
      assert Configured(cols, dir);
      ghost var states := (PaddleStates(), ball.State());
      CreateOrGenerate(template);
      assert (PaddleStates(), ball.State()) == states;
    }

    /** The start of a game in `Game()`: a game created from the template,
        or, when there is none, the generated layout. */
    method CreateOrGenerate(template: Option<Template>)
      requires Valid()
      modifies this
      ensures Valid()
      ensures (activeCols, board, paddles, ball, gameOver, waiting, pending)
              == old((activeCols, board, paddles, ball, gameOver, waiting, pending))
      ensures template.Some? ==> hpMap == template.value.hpMap.GetOr(map[])
      ensures template.Some? ==> scores == template.value.scores.GetOr([0, 0])
      ensures template.Some? ==> TemplatePieces(template.value, activeCols, hpMap, pieces)
      ensures template.None? ==> scores == old(scores) && hpMap == DefaultHp
      ensures template.None? ==> pieces == old(pieces) + Layout(Majors(activeCols), DefaultHp, activeCols)
    {
      if template.Some? {
        CreateFromTemplate(template.value);
      } else {
        InitPieces();
      }
    }

    /** Recompute the column count and geometry and replace the paddles and
        the ball (the first part of `reset_game`). */
    method Configure(rawDims: Option<string>, dir: (real, real))
      requires Valid()
      modifies this
      ensures Valid() && fresh(ball) && fresh(paddles[0]) && fresh(paddles[1])
      ensures Configured(ActiveCols(rawDims), dir)
      ensures (scores, pieces, hpMap, gameOver, waiting, pending)
              == old((scores, pieces, hpMap, gameOver, waiting, pending))
    {
      ghost var kept := (scores, pieces, hpMap, gameOver, waiting, pending);
      var cols := ActiveCols(rawDims);
      var b := MakeBoard(cols);
      var z := EntitySizes(cols);
      activeCols := cols;
      board := b;
      var top, bottom := NewPaddles(cols);
      paddles := [top, bottom];
      ball := new Ball((WIDTH as real) / 2.0, (HEIGHT as real) / 2.0, z.ballRadius as real, "#FFFFFF", BALL_SPEED, dir);
      assert (scores, pieces, hpMap, gameOver, waiting, pending) == kept;
    }

    /** `_init_pieces`: install the built-in HP map and append the layout of
        the active columns. */
    method InitPieces()
      requires AllowedCols(activeCols)
      modifies this
      ensures (activeCols, board, paddles, ball, scores, gameOver, waiting, pending)
              == old((activeCols, board, paddles, ball, scores, gameOver, waiting, pending))
      ensures hpMap == DefaultHp
      ensures pieces == old(pieces) + Layout(Majors(activeCols), DefaultHp, activeCols)
    {
      hpMap := DefaultHp;
      var majors := Majors(activeCols);
      var c := 0;
      while c < activeCols
        invariant 0 <= c <= activeCols == |majors|
        invariant activeCols == old(activeCols) && board == old(board) && paddles == old(paddles)
        invariant ball == old(ball) && scores == old(scores) && gameOver == old(gameOver)
        invariant waiting == old(waiting) && pending == old(pending)
        invariant hpMap == DefaultHp
        invariant pieces == old(pieces) + Layout(majors, hpMap, c)
      {
        AppendColumn(majors[c], c);
        LayoutStep(majors, hpMap, c, old(pieces));
        c := c + 1;
      }
    }

    /** The four pieces of column `c`: black major, black pawn, white pawn,
        white major. */
    method AppendColumn(m: PieceType, c: int)
      modifies this
      ensures pieces == old(pieces) + ColumnPieces(m, c, hpMap)
      ensures activeCols == old(activeCols) && board == old(board) && paddles == old(paddles)
      ensures ball == old(ball) && scores == old(scores) && gameOver == old(gameOver)
      ensures waiting == old(waiting) && pending == old(pending) && hpMap == old(hpMap)
    {
      pieces := pieces + [NewPiece(m, Black, c, 0, hpMap)];
      pieces := pieces + [NewPiece(Pawn, Black, c, 1, hpMap)];
      pieces := pieces + [NewPiece(Pawn, White, c, ROWS - 2, hpMap)];
      pieces := pieces + [NewPiece(m, White, c, ROWS - 1, hpMap)];
    }

    /** `_create_new_game_from_template` followed by `_load_db` of the file
        it writes: the full board takes the template's pieces, a reduced
        board a generated layout at the built-in hit points; the HP map and
        scores come from the template. */
    method CreateFromTemplate(t: Template)
      requires Valid()
      modifies this
      ensures Valid()
      ensures hpMap == t.hpMap.GetOr(map[])
      ensures scores == t.scores.GetOr([0, 0])
      ensures TemplatePieces(t, activeCols, hpMap, pieces)
      ensures (activeCols, board, paddles, ball, gameOver, waiting, pending)
              == old((activeCols, board, paddles, ball, gameOver, waiting, pending))
    {
      var cols := activeCols;
      var tmplHp := t.hpMap.GetOr(map[]);
      ghost var promised := (t.hpMap.GetOr(map[]), t.scores.GetOr([0, 0]));
      var loaded: seq<Piece>;
      if cols == COLS {
        var records := FillRecords(t.pieces, tmplHp);
        loaded := NormalisePieces(records, tmplHp);
        ReloadFilled(t, records, loaded, tmplHp);
      } else {
        var records := GenerateReduced(tmplHp);
        loaded := NormalisePieces(records, tmplHp);
        ReloadWritten(t, cols, loaded, tmplHp);
      }
      hpMap := tmplHp;
      scores := t.scores.GetOr([0, 0]);
      pieces := loaded;
      assert (hpMap, scores) == promised;
    }

    /** The reduced-board branch of `_create_new_game_from_template`: install
        the template's map (or keep the current one), then generate the
        layout afresh; `_init_pieces` replaces the map on the way. */
    method GenerateReduced(tmplHp: HpMap) returns (records: seq<PieceRecord>)
      requires AllowedCols(activeCols)
      modifies this
      ensures (activeCols, board, paddles, ball, scores, gameOver, waiting, pending)
              == old((activeCols, board, paddles, ball, scores, gameOver, waiting, pending))
      ensures hpMap == DefaultHp
      ensures pieces == ReducedPiecesAsWritten(activeCols)
      ensures records == Records(pieces)
    {
      hpMap := if tmplHp != map[] then tmplHp else hpMap;
      pieces := [];
      InitPieces();
      records := Records(pieces);
    }

    /** `reset_game`: reconfigure for the current `EXTRA_DIMENSIONS`
        setting, start a new game from the template, put the ball at rest in
        the centre and wait for a trajectory again. Without a readable
        template the reset stops after the new paddles and ball. `dir` and
        `dir2` stand for the random launch directions drawn on the way. */
    method ResetGame(rawDims: Option<string>, template: Option<Template>, dir: (real, real), dir2: (real, real))
      requires Valid()
      modifies this
      ensures Valid() && fresh(ball) && fresh(paddles[0]) && fresh(paddles[1])
      ensures activeCols == ActiveCols(rawDims) && board == MakeBoard(activeCols)
      ensures ResetTo(activeCols, template, dir)
      ensures ResetData(activeCols, template, old(Data()))
    {
      Configure(rawDims, dir);
      if template.Some? {
        StartFromTemplate(template.value, dir2);
      }
    }

    /** The per-game part of `reset_game`: a new game from the template, the
        ball back at rest in the centre, and a trajectory choice awaited
        again. `dir` stands for the launch direction `reset_ball` draws, which
        the zero velocity then overrides. */
    method StartFromTemplate(t: Template, dir: (real, real))
      requires Valid()
      modifies this, ball
      ensures Valid()
      ensures (activeCols, board, paddles, ball) == old((activeCols, board, paddles, ball))
      ensures PaddleStates() == old(PaddleStates())
      ensures ball.State() == old(ball.State()).(x := (WIDTH as real) / 2.0, y := (HEIGHT as real) / 2.0,
                                                 dx := 0.0, dy := 0.0, specialReady := false, specialActive := false)
      ensures hpMap == t.hpMap.GetOr(map[]) && scores == t.scores.GetOr([0, 0])
      ensures TemplatePieces(t, activeCols, hpMap, pieces)
      ensures waiting && pending.None? && gameOver.None?
    {
      CreateFromTemplate(t);
      ball.Reset((WIDTH as real) / 2.0, (HEIGHT as real) / 2.0, None, dir);
      ball.dx := 0.0;
      ball.dy := 0.0;
      waiting := true;
      pending := None;
      gameOver := None;
    }

    // -------------------------------------------------------------------
    // One tick

    method ApplyCommands(cmds: map<int, string>)
      requires Valid()
      modifies paddles
      ensures PaddleStates() == PaddlesCommanded(old(PaddleStates()), cmds)
    {
      if 0 in cmds {
        paddles[0].ApplyCommand(cmds[0]);
      }
      if 1 in cmds {
        paddles[1].ApplyCommand(cmds[1]);
      }
    }

    method MovePaddles(dt: real)
      requires Valid()
      modifies paddles
      ensures PaddleStates() == PaddlesMoved(old(PaddleStates()), dt, board.x, board.x + board.width as real)
    {
      var leftBound := board.x;
      var rightBound := board.x + board.width as real;
      paddles[0].Update(dt, leftBound, rightBound);
      paddles[1].Update(dt, leftBound, rightBound);
    }

    /** `_apply_trajectory`: the launch velocity of the pending choice. */
    method ApplyTrajectory(cosSin: real -> (real, real))
      requires pending.Some?
      modifies ball
      ensures ball.State() == old(ball.State()).(dx := LaunchVelocity(pending.value, cosSin).0,
                                                 dy := LaunchVelocity(pending.value, cosSin).1)
    {
      var angle := LaunchAngle(pending.value);
      var cs := cosSin(angle);
      ball.dx := cs.0 * BASE_SPEED;
      ball.dy := cs.1 * BASE_SPEED;
    }

    /** The wall reflection of `update`: the left/right checks, then the
        top/bottom checks. */
    method ReflectWalls() returns (collided: bool)
      modifies ball
      ensures (ball.State(), collided) == Walls(old(ball.State()), board)
    {
      var sides := ReflectSides(board.x, board.x + board.width as real);
      var ends := ReflectEnds(board.y, board.y + board.height as real);
      collided := sides || ends;
    }

    method ReflectSides(left: real, right: real) returns (collided: bool)
      modifies ball
      ensures (ball.State(), collided) == SideWalls(old(ball.State()), left, right)
    {
      collided := false;
      if ball.x - ball.radius < left {
        ball.x := left + ball.radius;
        ball.dx := -ball.dx;
        collided := true;
      }
      if ball.x + ball.radius > right {
        ball.x := right - ball.radius;
        ball.dx := -ball.dx;
        collided := true;
      }
    }

    method ReflectEnds(top: real, bottom: real) returns (collided: bool)
      modifies ball
      ensures (ball.State(), collided) == EndWalls(old(ball.State()), top, bottom)
    {
      collided := false;
      if ball.y - ball.radius < top {
        ball.y := top + ball.radius;
        ball.dy := -ball.dy;
        collided := true;
      }
      if ball.y + ball.radius > bottom {
        ball.y := bottom - ball.radius;
        ball.dy := -ball.dy;
        collided := true;
      }
    }

    /** The pieces the ball touches, scanned in list order. */
    method FindContacts() returns (hits: seq<Hit>)
      ensures hits == Contacts(ball.State(), board, pieces)
      ensures Ascending(hits, |pieces|)
    {
      var b := ball.State();
      var ps := pieces;
      hits := [];
      var i := 0;
      while i < |ps|
        invariant 0 <= i <= |ps|
        invariant hits == Contacts(b, board, ps[..i])
      {
        var rect := CellRect(board, ps[i]);
        ContactsSnoc(b, board, ps, i);
        if Touches(b, rect) {
          var overlapX := MinR(b.x - rect.left, rect.right - b.x);
          var overlapY := MinR(b.y - rect.top, rect.bottom - b.y);
          assert Hit(i, rect, overlapX, overlapY) == HitOf(b, i, rect);
          hits := hits + [Hit(i, rect, overlapX, overlapY)];
        }
        assert hits == Contacts(b, board, ps[..i + 1]);
        i := i + 1;
      }
      assert ps[..i] == ps;
      ContactsAscending(b, board, ps);
    }

    /** The combined response to the contacts of this tick. */
    method BounceOff(hits: seq<Hit>)
      requires hits != []
      modifies ball
      ensures ball.State() == Bounce(old(ball.State()), hits)
    {
      var sumOx := SumOx(hits);
      var sumOy := SumOy(hits);
      var n := |hits| as real;
      if sumOx < sumOy {
        var avgCx := SumCx(hits) / n;
        if ball.x < avgCx {
          ball.x := Leftmost(hits) - ball.radius;
        } else {
          ball.x := Rightmost(hits) + ball.radius;
        }
        ball.dx := -ball.dx;
      } else {
        var avgCy := SumCy(hits) / n;
        if ball.y < avgCy {
          ball.y := Topmost(hits) - ball.radius;
        } else {
          ball.y := Bottommost(hits) + ball.radius;
        }
        ball.dy := -ball.dy;
      }
    }

    /** Damage every hit piece outside its cooldown. */
    method ApplyDamage(hits: seq<Hit>, now: real)
      requires Ascending(hits, |pieces|)
      modifies this
      ensures pieces == DamageAll(old(pieces), hits, now)
      ensures activeCols == old(activeCols) && board == old(board) && paddles == old(paddles)
      ensures ball == old(ball) && scores == old(scores) && gameOver == old(gameOver)
      ensures waiting == old(waiting) && pending == old(pending) && hpMap == old(hpMap)
    {
      var k := 0;
      while k < |hits|
        invariant 0 <= k <= |hits|
        invariant pieces == DamageAll(old(pieces), hits[..k], now)
        invariant activeCols == old(activeCols) && board == old(board) && paddles == old(paddles)
        invariant ball == old(ball) && scores == old(scores) && gameOver == old(gameOver)
        invariant waiting == old(waiting) && pending == old(pending) && hpMap == old(hpMap)
      {
        var i := hits[k].index;
        var pc := pieces[i];
        if now - pc.lastHit >= HIT_COOLDOWN {
          var hp := pc.hp - 1;
          if hp < 0 {
            hp := 0;
          }
          pieces := pieces[i := pc.(hp := hp, lastHit := now)];
        }
        assert hits[..k + 1][..k] == hits[..k];
        k := k + 1;
      }
      assert hits[..k] == hits;
    }

    /** Remove the hit pieces left without HP; a removed king ends the game. */
    method RemoveDestroyed(hits: seq<Hit>)
      modifies this
      ensures (pieces, gameOver) == Removal(old(pieces), hits, old(gameOver))
      ensures activeCols == old(activeCols) && board == old(board) && paddles == old(paddles)
      ensures ball == old(ball) && scores == old(scores)
      ensures waiting == old(waiting) && pending == old(pending) && hpMap == old(hpMap)
    {
      var damaged := pieces;
      var k := 0;
      while k < |hits|
        invariant 0 <= k <= |hits|
        invariant (pieces, gameOver) == Removal(damaged, hits[..k], old(gameOver))
        invariant activeCols == old(activeCols) && board == old(board) && paddles == old(paddles)
        invariant ball == old(ball) && scores == old(scores)
        invariant waiting == old(waiting) && pending == old(pending) && hpMap == old(hpMap)
      {
        var i := hits[k].index;
        if i < |damaged| && damaged[i].hp <= 0 {
          var pc := damaged[i];
          pieces := RemoveFirst(pieces, pc);
          if pc.kind == King {
            var winner := if pc.color == White then 0 else 1;
            gameOver := Some(GameOver(winner, pc.color));
          }
        }
        assert hits[..k + 1][..k] == hits[..k];
        k := k + 1;
      }
      assert hits[..k] == hits;
    }

    /** The tick once the ball is in play. */
    method PlayTick(dt: real, cmds: map<int, string>, now: real) returns (collided: bool)
      requires Valid()
      modifies this, ball, paddles
      ensures (activeCols, board, paddles, ball, scores, hpMap) == old((activeCols, board, paddles, ball, scores, hpMap))
      ensures (Current(), collided) == Physics.Play(old(Current()), board, dt, cmds, now)
    {
      ghost var w0 := Current();
      ApplyCommands(cmds);
      MovePaddles(dt);
      ghost var ps := PaddleStates();
      assert ps == PaddlesStep(w0.paddles, board, dt, cmds);
      ball.Update(dt);
      collided := ReflectWalls();
      ghost var b := ball.State();
      assert (b, collided) == Walls(Advanced(w0.ball, dt), board);
      var hits := FindContacts();
      if hits != [] {
        BounceOff(hits);
        collided := true;
        ghost var bounced := ball.State();
        ApplyDamage(hits, now);
        ghost var damaged := pieces;
        RemoveDestroyed(hits);
        assert (pieces, gameOver) == Removal(damaged, hits, w0.gameOver);
        assert PaddleStates() == ps && ball.State() == bounced;
      } else {
        assert PaddleStates() == ps && ball.State() == b;
      }
    }

    /** `update(dt, player_commands)`; `traj` is the `trajectory` entry
        (`Null` when absent), `now` the clock. */
    method Update(dt: real, cmds: map<int, string>, traj: Value, now: real, cosSin: real -> (real, real))
      returns (collided: bool)
      requires Valid()
      modifies this, ball, paddles
      ensures Valid()
      ensures (activeCols, board, paddles, ball, scores, hpMap) == old((activeCols, board, paddles, ball, scores, hpMap))
      ensures (Current(), collided) == Step(old(Current()), board, dt, cmds, traj, now, cosSin)
    {
      if waiting {
        if traj.Null? {
          ApplyCommands(cmds);
          MovePaddles(dt);
          return false;
        }
        pending := AcceptTrajectory(traj);
        if pending.Some? {
          waiting := false;
          ApplyTrajectory(cosSin);
        }
      }
      collided := PlayTick(dt, cmds, now);
    }

    /** `get_state`: the snapshot with every piece at its cell's centre. */
    method GetState(now: real) returns (s: Snapshot)
      requires Valid()
      ensures Snapshots(s, now)
    {
      var piecesPx: seq<PieceView> := [];
      var i := 0;
      while i < |pieces|
        invariant 0 <= i <= |pieces| && |piecesPx| == i
        invariant forall k :: 0 <= k < i ==> piecesPx[k] == ViewOf(board, pieces[k])
      {
        var pc := pieces[i];
        var cell := board.cellSize as real;
        var x := board.x + (pc.col as real) * cell + cell / 2.0;
        var y := board.y + (pc.row as real) * cell + cell / 2.0;
        piecesPx := piecesPx + [PieceView(pc.kind, pc.color, pc.col, pc.row, x, y, board.cellSize, pc.hp, pc.maxHp)];
        i := i + 1;
      }
      s := Snapshot(WIDTH, HEIGHT, board, ball.ToDict(), [paddles[0].ToDict(), paddles[1].ToDict()],
                    piecesPx, scores, now, gameOver, waiting);
    }
  }
}
