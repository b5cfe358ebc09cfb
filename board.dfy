/** Board geometry and the initial piece set (game.py): the active column
    count, the constant cell size, the centred board, paddle and ball sizes,
    the centred slice of the back rank with its pawns, the defaulting of
    loaded piece records, and the pixel placement reported to clients. */
module Board {
  import opened Values

  /** Window size and the canonical 8x8 grid. */
  const WIDTH: int := 800
  const HEIGHT: int := 600
  const COLS: int := 8
  const ROWS: int := 8
  const MARGIN: int := 20

  predicate AllowedCols(n: int) {
    n == 2 || n == 4 || n == 6 || n == 8
  }

  /** The active column count from the `EXTRA_DIMENSIONS` setting (`None`
      when unset): the setting when it reads as one of 2, 4, 6, 8, else 8. */
  function ActiveCols(raw: Option<string>): (n: int)
    ensures AllowedCols(n)
    ensures raw.Some? && ParseInt(raw.value).Some? && AllowedCols(ParseInt(raw.value).value)
            ==> n == ParseInt(raw.value).value
    ensures n != COLS ==> raw.Some? && ParseInt(raw.value) == Some(n)
  {
    match raw
    case None => COLS
    case Some(s) =>
      match ParseInt(s)
      case Some(d) => if AllowedCols(d) then d else COLS
      case None => COLS
  }

  function MinReal(a: real, b: real): real {
    if a <= b then a else b
  }

  function MaxInt(a: int, b: int): int {
    if a >= b then a else b
  }

  /** The cell size: the cell of the canonical 8x8 board fitted into the
      window minus its margins, at least 8 pixels. It takes no column count:
      reduced boards are narrower, not rescaled. */
  function CellSize(): (c: int)
    ensures c == 70
  {
    var baseCell := MinReal((WIDTH - MARGIN * 2) as real / COLS as real,
                            (HEIGHT - MARGIN * 2) as real / ROWS as real);
    MaxInt(8, baseCell.Floor)
  }

  datatype BoardGeom = BoardGeom(cols: int, rows: int, cellSize: int,
                                 x: real, y: real, width: int, height: int)

  /** The board dictionary for `cols` active columns. */
  function MakeBoard(cols: int): (b: BoardGeom)
    ensures b.cols == cols && b.rows == ROWS && b.cellSize == CellSize()
    ensures b.width == b.cellSize * cols && b.height == b.cellSize * ROWS
    ensures b.x + (b.width as real) / 2.0 == (WIDTH as real) / 2.0
    ensures b.y + (b.height as real) / 2.0 == (HEIGHT as real) / 2.0
  {
    var cell := CellSize();
    var w := cell * cols;
    var h := cell * ROWS;
    BoardGeom(cols, ROWS, cell, (WIDTH - w) as real / 2.0, (HEIGHT - h) as real / 2.0, w, h)
  }

  /** Every allowed board lies inside the window, with the same cell size. */
  lemma BoardFitsWindow(cols: int)
    requires AllowedCols(cols)
    ensures 0.0 < MakeBoard(cols).x
    ensures MakeBoard(cols).x + MakeBoard(cols).width as real < WIDTH as real
    ensures MakeBoard(cols).y == MARGIN as real
    ensures MakeBoard(cols).y + MakeBoard(cols).height as real == (HEIGHT - MARGIN) as real
  {
  }

  /** Paddle width and height and ball radius: small for the 2-column board. */
  datatype Sizes = Sizes(padW: real, padH: real, ballRadius: int)

  function EntitySizes(cols: int): (z: Sizes)
    ensures z.padW > 0.0 && z.padH > 0.0 && z.ballRadius > 0
  {
    var cell := CellSize();
    if cols == 2 then
      Sizes(MaxInt((cell as real * 0.9).Floor, cell) as real,
            MaxInt(3, (cell as real * 0.08).Floor) as real,
            MaxInt(3, (cell as real * 0.10).Floor))
    else
      Sizes(cell as real * 1.75, cell as real * 0.25, MaxInt(6, (cell as real * 0.2).Floor))
  }

  /** A paddle is never wider than the board it moves on, and the ball is
      smaller than a cell. */
  lemma PaddleFitsBoard(cols: int)
    requires AllowedCols(cols)
    ensures EntitySizes(cols).padW <= MakeBoard(cols).width as real
    ensures 2 * EntitySizes(cols).ballRadius < CellSize()
  {
  }

  /** Paddle heights: just below the black pawns, just above the white pawns. */
  function TopPaddleY(b: BoardGeom, padH: real): real {
    b.y + (b.cellSize * 2) as real + padH / 2.0 + 4.0
  }

  function BottomPaddleY(b: BoardGeom, padH: real): real {
    b.y + (b.cellSize * (ROWS - 2)) as real - padH / 2.0 - 4.0
  }

  /** The paddles lie in the open middle of the board: the top paddle's
      upper edge is below row 1, the bottom paddle's lower edge above row 6. */
  lemma PaddlesBetweenPawnRows(cols: int)
    requires AllowedCols(cols)
    ensures var b := MakeBoard(cols); var h := EntitySizes(cols).padH;
            TopPaddleY(b, h) - h / 2.0 > b.y + (2 * b.cellSize) as real
            && BottomPaddleY(b, h) + h / 2.0 < b.y + (6 * b.cellSize) as real
            && TopPaddleY(b, h) + h / 2.0 < BottomPaddleY(b, h) - h / 2.0
  {
  }

  // ---------------------------------------------------------------------
  // Pieces

  datatype PieceType = Pawn | Knight | Bishop | Rook | Queen | King
  datatype Color = White | Black

  /** A live piece record. `lastHit` is the time of its last damage. */
  datatype Piece = Piece(kind: PieceType, color: Color, col: int, row: int,
                         hp: int, maxHp: int, lastHit: real)

  type HpMap = map<PieceType, int>

  /** `hp_map.get(type, 1)`. */
  function HpFor(m: HpMap, t: PieceType): int {
    if t in m then m[t] else 1
  }

  /** The built-in hit points per type. */
  const DefaultHp: HpMap :=
    map[Pawn := 2, Knight := 4, Rook := 5, Bishop := 5, Queen := 8, King := 10]

  const BackRank: seq<PieceType> := [Rook, Knight, Bishop, Queen, King, Bishop, Knight, Rook]

  /** The centred slice of the back rank for `cols` columns. */
  function Majors(cols: int): (m: seq<PieceType>)
    requires 0 <= cols <= COLS
    ensures |m| == cols
    ensures forall c :: 0 <= c < cols ==> m[c] == BackRank[(COLS - cols) / 2 + c]
  {
    var start := (|BackRank| - cols) / 2;
    BackRank[start..start + cols]
  }

  function NewPiece(t: PieceType, color: Color, col: int, row: int, hp: HpMap): Piece {
    Piece(t, color, col, row, HpFor(hp, t), HpFor(hp, t), 0.0)
  }

  /** The four pieces placed in column `c`, in the order they are appended:
      black major on row 0, black pawn on row 1, white pawn on row 6, white
      major on row 7. */
  function ColumnPieces(m: PieceType, c: int, hp: HpMap): seq<Piece> {
    [NewPiece(m, Black, c, 0, hp), NewPiece(Pawn, Black, c, 1, hp),
     NewPiece(Pawn, White, c, ROWS - 2, hp), NewPiece(m, White, c, ROWS - 1, hp)]
  }

  /** The pieces of the first `n` columns. */
  function Layout(majors: seq<PieceType>, hp: HpMap, n: nat): seq<Piece>
    requires n <= |majors|
  {
    if n == 0 then [] else Layout(majors, hp, n - 1) + ColumnPieces(majors[n - 1], n - 1, hp)
  }

  /** The kind, colour and row that the `k`-th piece of a column gets. */
  function SlotKind(m: PieceType, k: int): PieceType {
    if k == 0 || k == 3 then m else Pawn
  }

  function SlotColor(k: int): Color {
    if k <= 1 then Black else White
  }

  function SlotRow(k: int): int {
    if k == 0 then 0 else if k == 1 then 1 else if k == 2 then ROWS - 2 else ROWS - 1
  }

  /** Piece `i` of the layout belongs to column `i / 4`, slot `i % 4`, with
      full hit points from the map and no damage yet. */
  lemma {:induction false} LayoutAt(majors: seq<PieceType>, hp: HpMap, n: nat, i: int)
    requires n <= |majors| && 0 <= i < 4 * n
    ensures |Layout(majors, hp, n)| == 4 * n
    ensures Layout(majors, hp, n)[i] ==
            NewPiece(SlotKind(majors[i / 4], i % 4), SlotColor(i % 4), i / 4, SlotRow(i % 4), hp)
  {
    LayoutLength(majors, hp, n);
    if i < 4 * (n - 1) {
      LayoutAt(majors, hp, n - 1, i);
    } else {
      assert i / 4 == n - 1;
    }
  }

  lemma {:induction false} LayoutLength(majors: seq<PieceType>, hp: HpMap, n: nat)
    requires n <= |majors|
    ensures |Layout(majors, hp, n)| == 4 * n
  {
    if n > 0 {
      LayoutLength(majors, hp, n - 1);
    }
  }

  /** The initial layout for an allowed width: `4 * cols` pieces, black on
      rows 0 and 1 and white on rows 6 and 7, pawns exactly on rows 1 and 6,
      the back-rank slice on rows 0 and 7, each at full hit points
      `hp == max_hp == hp_map.get(type, 1)`. */
  lemma InitialLayout(cols: int, hp: HpMap, i: int)
    requires AllowedCols(cols) && 0 <= i < 4 * cols
    ensures |Layout(Majors(cols), hp, cols)| == 4 * cols
    ensures var p := Layout(Majors(cols), hp, cols)[i];
            && 0 <= p.col < cols
            && (p.color == Black <==> p.row <= 1)
            && (p.row == 0 || p.row == 1 || p.row == ROWS - 2 || p.row == ROWS - 1)
            && (p.kind == Pawn <==> p.row == 1 || p.row == ROWS - 2)
            && (p.row == 0 || p.row == ROWS - 1 ==> p.kind == BackRank[(COLS - cols) / 2 + p.col])
            && p.hp == p.maxHp == HpFor(hp, p.kind)
            && p.lastHit == 0.0
  {
    var c := i / 4;
    var k := i % 4;
    assert 0 <= c < cols && 0 <= k < 4;
    var j := (COLS - cols) / 2 + c;
    assert 0 <= j < |BackRank|;
    var m := Majors(cols)[c];
    assert m == BackRank[j];
    assert Layout(Majors(cols), hp, cols)[i] == NewPiece(SlotKind(m, k), SlotColor(k), c, SlotRow(k), hp)
           && |Layout(Majors(cols), hp, cols)| == 4 * cols by {
      LayoutAt(Majors(cols), hp, cols, i);
    }
    SlotPiece(cols, hp, c, k, Layout(Majors(cols), hp, cols)[i]);
  }

  /** The piece `p` in slot `k` of column `c`. */
  lemma SlotPiece(cols: int, hp: HpMap, c: int, k: int, p: Piece)
    requires AllowedCols(cols) && 0 <= c < cols && 0 <= k < 4
    requires p == NewPiece(SlotKind(BackRank[(COLS - cols) / 2 + c], k), SlotColor(k), c, SlotRow(k), hp)
    ensures && 0 <= p.col < cols
            && (p.color == Black <==> p.row <= 1)
            && (p.row == 0 || p.row == 1 || p.row == ROWS - 2 || p.row == ROWS - 1)
            && (p.kind == Pawn <==> p.row == 1 || p.row == ROWS - 2)
            && (p.row == 0 || p.row == ROWS - 1 ==> p.kind == BackRank[(COLS - cols) / 2 + p.col])
            && p.hp == p.maxHp == HpFor(hp, p.kind)
            && p.lastHit == 0.0
  {
    var j := (COLS - cols) / 2 + c;
    assert 0 <= j < |BackRank|;
    assert BackRank[j] != Pawn by {
      assert forall t :: 0 <= t < |BackRank| ==> BackRank[t] != Pawn;
    }
  }

  /** Number of kings of one colour. */
  function CountKings(ps: seq<Piece>, c: Color): nat {
    if ps == [] then 0
    else CountKings(ps[..|ps| - 1], c) + KingOf(ps[|ps| - 1], c)
  }

  lemma {:induction false} CountKingsAppend(a: seq<Piece>, b: seq<Piece>, c: Color)
    ensures CountKings(a + b, c) == CountKings(a, c) + CountKings(b, c)
    decreases |b|
  {
    if b == [] {
      assert a + b == a;
    } else {
      assert (a + b)[..|a + b| - 1] == a + b[..|b| - 1];
      CountKingsAppend(a, b[..|b| - 1], c);
    }
  }

  function KingOf(p: Piece, c: Color): nat {
    if p.kind == King && p.color == c then 1 else 0
  }

  /** A column of four pieces holds as many kings of a colour as its members. */
  lemma CountKingsFour(col: seq<Piece>, c: Color)
    requires |col| == 4
    ensures CountKings(col, c) == KingOf(col[0], c) + KingOf(col[1], c) + KingOf(col[2], c) + KingOf(col[3], c)
  {
    forall p: Piece ensures CountKings([p], c) == KingOf(p, c) {
      assert [p][..0] == [];
    }
    assert col == [col[0]] + [col[1]] + [col[2]] + [col[3]];
    CountKingsAppend([col[0]], [col[1]], c);
    CountKingsAppend([col[0]] + [col[1]], [col[2]], c);
    CountKingsAppend([col[0]] + [col[1]] + [col[2]], [col[3]], c);
  }

  /** Number of kings among the first `n` back-rank types. */
  function KingsIn(majors: seq<PieceType>, n: nat): nat
    requires n <= |majors|
  {
    if n == 0 then 0 else KingsIn(majors, n - 1) + (if majors[n - 1] == King then 1 else 0)
  }

  /** Kings of either colour in the layout are the kings of the back-rank slice. */
  lemma {:induction false} LayoutKings(majors: seq<PieceType>, hp: HpMap, n: nat, c: Color)
    requires n <= |majors|
    ensures CountKings(Layout(majors, hp, n), c) == KingsIn(majors, n)
  {
    if n > 0 {
      LayoutKings(majors, hp, n - 1, c);
      var col := ColumnPieces(majors[n - 1], n - 1, hp);
      CountKingsAppend(Layout(majors, hp, n - 1), col, c);
      CountKingsFour(col, c);
    }
  }

  /** A slice whose only king sits at index `k` has one king once `k` is counted. */
  lemma {:induction false} KingsInUnique(majors: seq<PieceType>, n: nat, k: nat)
    requires n <= |majors| && k < |majors|
    requires forall j :: 0 <= j < |majors| ==> (majors[j] == King <==> j == k)
    ensures KingsIn(majors, n) == if k < n then 1 else 0
  {
    if n > 0 {
      KingsInUnique(majors, n - 1, k);
    }
  }

  /** Every allowed width keeps exactly one king per colour. */
  lemma OneKingEach(cols: int, hp: HpMap, c: Color)
    requires AllowedCols(cols)
    ensures CountKings(Layout(Majors(cols), hp, cols), c) == 1
  {
    var m := Majors(cols);
    LayoutKings(m, hp, cols, c);
    var s := (COLS - cols) / 2;
    assert forall i :: 0 <= i < |BackRank| ==> (BackRank[i] == King <==> i == 4);
    assert forall j :: 0 <= j < cols ==> (m[j] == King <==> j == 4 - s);
    KingsInUnique(m, cols, 4 - s);
  }

  // ---------------------------------------------------------------------
  // Piece records as stored in the game file

  /** A piece record as read from the game file: `hp`, `max_hp` and
      `last_hit` may be missing. */
  datatype PieceRecord = PieceRecord(kind: PieceType, color: Color, col: int, row: int,
                                     hp: Option<int>, maxHp: Option<int>, lastHit: Option<real>)

  /** The defaulting applied when a new game file is created from the
      template: a missing `max_hp` becomes the type's HP, a missing `hp`
      becomes `max_hp`. */
  function FillHp(r: PieceRecord, m: HpMap): (f: PieceRecord)
    ensures f.maxHp == Some(r.maxHp.GetOr(HpFor(m, r.kind)))
    ensures f.hp == Some(r.hp.GetOr(f.maxHp.value))
    ensures f.lastHit == r.lastHit
    ensures (f.kind, f.color, f.col, f.row) == (r.kind, r.color, r.col, r.row)
  {
    var maxHp := r.maxHp.GetOr(HpFor(m, r.kind));
    r.(maxHp := Some(maxHp), hp := Some(r.hp.GetOr(maxHp)))
  }

  /** A record as the engine holds it after loading: fields present in the
      file are kept; a missing `max_hp` is the type's HP, a missing `hp` is
      `max_hp`, a missing `last_hit` is 0. */
  function Load(r: PieceRecord, m: HpMap): (p: Piece)
    ensures r.maxHp.Some? ==> p.maxHp == r.maxHp.value
    ensures r.maxHp.None? ==> p.maxHp == HpFor(m, r.kind)
    ensures r.hp.Some? ==> p.hp == r.hp.value
    ensures r.hp.None? ==> p.hp == p.maxHp
    ensures r.lastHit.Some? ==> p.lastHit == r.lastHit.value
    ensures r.lastHit.None? ==> p.lastHit == 0.0
    ensures (p.kind, p.color, p.col, p.row) == (r.kind, r.color, r.col, r.row)
  {
    var maxHp := r.maxHp.GetOr(HpFor(m, r.kind));
    Piece(r.kind, r.color, r.col, r.row, r.hp.GetOr(maxHp), maxHp, r.lastHit.GetOr(0.0))
  }

  /** The record written to the game file for a piece. */
  function ToRecord(p: Piece): PieceRecord {
    PieceRecord(p.kind, p.color, p.col, p.row, Some(p.hp), Some(p.maxHp), Some(p.lastHit))
  }

  /** Writing a piece and loading it back gives the same piece, whatever the
      HP map; and filling before loading changes nothing. */
  lemma RecordRoundTrip(p: Piece, r: PieceRecord, m: HpMap)
    ensures Load(ToRecord(p), m) == p
    ensures Load(FillHp(r, m), m) == Load(r, m)
  {
  }

  // ---------------------------------------------------------------------
  // Pixel placement reported in the state snapshot

  datatype PieceView = PieceView(kind: PieceType, color: Color, col: int, row: int,
                                 x: real, y: real, size: int, hp: int, maxHp: int)

  /** A piece as the clients see it: its cell's centre in pixels. */
  function ViewOf(b: BoardGeom, p: Piece): (v: PieceView)
    ensures (v.kind, v.color, v.col, v.row, v.hp, v.maxHp) == (p.kind, p.color, p.col, p.row, p.hp, p.maxHp)
    ensures v.size == b.cellSize
  {
    var cell := b.cellSize as real;
    PieceView(p.kind, p.color, p.col, p.row,
              b.x + (p.col as real) * cell + cell / 2.0,
              b.y + (p.row as real) * cell + cell / 2.0,
              b.cellSize, p.hp, p.maxHp)
  }

  /** The centre of cell `k` along one axis lies strictly inside the cell,
      and inside `n` cells when `0 <= k < n`. */
  lemma CentreInCell(base: real, k: int, n: int, cell: int)
    requires cell > 0
    ensures var c := cell as real;
            base + (k as real) * c < base + (k as real) * c + c / 2.0 < base + (k as real + 1.0) * c
    ensures 0 <= k < n ==>
            base < base + (k as real) * (cell as real) + (cell as real) / 2.0 < base + (cell * n) as real
  {
    var c := cell as real;
    assert (k as real + 1.0) * c == (k as real) * c + c;
    if 0 <= k < n {
      var total := (cell * n) as real;
      assert total == (n as real) * c;
      var gap := n as real - (k as real + 1.0);
      assert gap >= 0.0;
      assert gap * c >= 0.0;
      assert (n as real) * c - (k as real + 1.0) * c == gap * c;
      assert 0.0 <= (k as real) * c;
    }
  }

  /** Distinct cells along one axis have distinct centres. */
  lemma CentresDistinct(k: int, j: int, cell: int)
    requires cell > 0 && k != j
    ensures (k as real) * (cell as real) != (j as real) * (cell as real)
  {
    var c := cell as real;
    assert (k as real) * c - (j as real) * c == (k as real - j as real) * c;
  }

  /** The reported centre lies strictly inside the piece's cell, so inside
      the board for a piece on the board; distinct cells have distinct centres. */
  lemma ViewInsideCell(b: BoardGeom, p: Piece, q: Piece)
    requires b.cellSize > 0 && b.width == b.cellSize * b.cols && b.height == b.cellSize * b.rows
    ensures var v := ViewOf(b, p); var cell := b.cellSize as real;
            && b.x + (p.col as real) * cell < v.x < b.x + (p.col as real + 1.0) * cell
            && b.y + (p.row as real) * cell < v.y < b.y + (p.row as real + 1.0) * cell
    ensures 0 <= p.col < b.cols && 0 <= p.row < b.rows ==>
            b.x < ViewOf(b, p).x < b.x + b.width as real && b.y < ViewOf(b, p).y < b.y + b.height as real
    ensures (p.col, p.row) != (q.col, q.row) ==> (ViewOf(b, p).x, ViewOf(b, p).y) != (ViewOf(b, q).x, ViewOf(b, q).y)
  {
    ViewInCell(b, p);
    ViewOnBoard(b, p);
    ViewsDistinct(b, p, q);
  }

  lemma ViewInCell(b: BoardGeom, p: Piece)
    requires b.cellSize > 0
    ensures var v := ViewOf(b, p); var cell := b.cellSize as real;
            && b.x + (p.col as real) * cell < v.x < b.x + (p.col as real + 1.0) * cell
            && b.y + (p.row as real) * cell < v.y < b.y + (p.row as real + 1.0) * cell
  {
    CentreInCell(b.x, p.col, b.cols, b.cellSize);
    CentreInCell(b.y, p.row, b.rows, b.cellSize);
  }

  lemma ViewOnBoard(b: BoardGeom, p: Piece)
    requires b.cellSize > 0 && b.width == b.cellSize * b.cols && b.height == b.cellSize * b.rows
    ensures 0 <= p.col < b.cols && 0 <= p.row < b.rows ==>
            b.x < ViewOf(b, p).x < b.x + b.width as real && b.y < ViewOf(b, p).y < b.y + b.height as real
  {
    CentreInCell(b.x, p.col, b.cols, b.cellSize);
    CentreInCell(b.y, p.row, b.rows, b.cellSize);
  }

  lemma ViewsDistinct(b: BoardGeom, p: Piece, q: Piece)
    requires b.cellSize > 0
    ensures (p.col, p.row) != (q.col, q.row) ==> (ViewOf(b, p).x, ViewOf(b, p).y) != (ViewOf(b, q).x, ViewOf(b, q).y)
  {
    if p.col != q.col {
      CentresDistinct(p.col, q.col, b.cellSize);
    }
    if p.row != q.row {
      CentresDistinct(p.row, q.row, b.cellSize);
    }
  }
}
