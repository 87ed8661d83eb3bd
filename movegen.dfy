/** Pseudo-legal move generation: the shared ray caster, the six piece
    generators and the dispatch over piece kinds. Each generator is a
    method that fills its two lists step by step, proved equal to a
    specification function over the value view of the board; the lemmas
    characterise those functions square by square. */
module MoveGen {
  import opened ChessBoard

  /** The two lists a generator returns: quiet moves (list 0) and captures (list 1). */
  datatype MoveLists = MoveLists(quiet: seq<Square>, captures: seq<Square>)

  const NO_MOVES := MoveLists([], [])

  /** A step (dy, dx) in ranks and files. */
  datatype Delta = Delta(dy: int, dx: int)

  /** Appends sq to the capture list when cap holds, to the quiet list otherwise. */
  function Add(ml: MoveLists, sq: Square, cap: bool): MoveLists
  {
    if cap then ml.(captures := ml.captures + [sq]) else ml.(quiet := ml.quiet + [sq])
  }

  /** A value that stops a ray and is taken as a capture: a real piece, neither empty nor a marker. */
  predicate IsPieceValue(v: int)
  {
    v != 0 && Abs(v) != EP_FLAG
  }

  function Offset(pos: Square, d: Delta): Square
  {
    Square(pos.rank + d.dy, pos.file + d.dx)
  }

  /** The i-th square from pos in direction d. */
  function Step(pos: Square, d: Delta, i: int): Square
  {
    Square(pos.rank + d.dy * i, pos.file + d.dx * i)
  }

  predicate IsUnit(d: Delta)
  {
    -1 <= d.dy <= 1 && -1 <= d.dx <= 1
  }

  predicate IsDirection(d: Delta)
  {
    IsUnit(d) && d != Delta(0, 0)
  }

  // Candidate offsets, in the order the generators visit them.
  const KNIGHT_OFFSETS := [Delta(2, -1), Delta(2, 1), Delta(-2, -1), Delta(-2, 1),
                           Delta(1, -2), Delta(1, 2), Delta(-1, -2), Delta(-1, 2)]
  /** The 3x3 block visited by the nested dy, dx loops of the king and the queen (centre included). */
  function Block(): (r: seq<Delta>)
    ensures |r| == 9
  {
    seq(9, k => Delta(k / 3 - 1, k % 3 - 1))
  }
  /** The entry of Block() that the nested loops reach at (dy, dx). */
  lemma BlockAt(dy: int, dx: int)
    requires -1 <= dy <= 1 && -1 <= dx <= 1
    ensures 0 <= 3 * (dy + 1) + (dx + 1) < 9 && Block()[3 * (dy + 1) + (dx + 1)] == Delta(dy, dx)
  {
  }

  /** Bishop directions (1 - 2a, 1 - 2b) for a, b in 0..1. */
  function BishopDirs(): (r: seq<Delta>)
    ensures r == [Delta(1, 1), Delta(1, -1), Delta(-1, 1), Delta(-1, -1)]
  {
    seq(4, k => Delta(1 - 2 * (k / 2), 1 - 2 * (k % 2)))
  }
  /** Rook directions (a(1 - 2b), !a(1 - 2b)) for a, b in 0..1. */
  const ROOK_DIRS := [Delta(0, 1), Delta(0, -1), Delta(1, 0), Delta(-1, 0)]

  /*-Knight and king------------------------------------------------------*/

  /** One candidate of a leaping piece: kept when on the board and not holding a friendly
      value; a capture when it holds a real piece. */
  function Leap(g: Grid, pos: Square, player: int, d: Delta, ml: MoveLists): MoveLists
  {
    var sq := Offset(pos, d);
    if OnBoard(sq) && Signum(Cell(g, sq)) != player then Add(ml, sq, IsPieceValue(Cell(g, sq)))
    else ml
  }

  /** The lists after the first n offsets; the offset (0, 0) is skipped. */
  function Leaps(g: Grid, pos: Square, player: int, offs: seq<Delta>, n: nat): MoveLists
    requires n <= |offs|
  {
    if n == 0 then NO_MOVES
    else
      var prev := Leaps(g, pos, player, offs, n - 1);
      if offs[n - 1] == Delta(0, 0) then prev else Leap(g, pos, player, offs[n - 1], prev)
  }

  function Knight(g: Grid, pos: Square, player: int): MoveLists
  {
    Leaps(g, pos, player, KNIGHT_OFFSETS, 8)
  }

  function King(g: Grid, pos: Square, player: int): MoveLists
  {
    Leaps(g, pos, player, Block(), 9)
  }

  /*-Rays-----------------------------------------------------------------*/

  lemma StepBound(pos: Square, d: Delta, i: int)
    requires OnBoard(pos) && IsDirection(d) && 1 <= i
    requires OnBoard(Step(pos, d, i))
    ensures i <= 7
  {
  }

  /** cast_dydx from the i-th square on, appending to ml: every square up to the first
      real piece or the edge goes to the quiet list unless it holds a friendly value, and
      that piece goes to the capture list unless it is friendly. */
  function Ray(g: Grid, pos: Square, d: Delta, player: int, i: int, ml: MoveLists): MoveLists
    requires OnBoard(pos) && IsDirection(d) && 1 <= i
    decreases 8 - i
  {
    var sq := Step(pos, d, i);
    if !OnBoard(sq) then ml
    else
      var v := Cell(g, sq);
      var cap := IsPieceValue(v);
      var next := if Signum(v) != player then Add(ml, sq, cap) else ml;
      if cap then next
      else
        StepBound(pos, d, i);
        Ray(g, pos, d, player, i + 1, next)
  }

  /** The lists after casting rays along the first n directions; (0, 0) is skipped. */
  function Slide(g: Grid, pos: Square, player: int, dirs: seq<Delta>, n: nat): MoveLists
    requires OnBoard(pos) && n <= |dirs|
    requires forall k :: 0 <= k < |dirs| ==> IsUnit(dirs[k])
  {
    if n == 0 then NO_MOVES
    else
      var prev := Slide(g, pos, player, dirs, n - 1);
      var d := dirs[n - 1];
      if d == Delta(0, 0) then prev else Ray(g, pos, d, player, 1, prev)
  }

  function Bishop(g: Grid, pos: Square, player: int): MoveLists
    requires OnBoard(pos)
  {
    Slide(g, pos, player, BishopDirs(), 4)
  }

  function Rook(g: Grid, pos: Square, player: int): MoveLists
    requires OnBoard(pos)
  {
    Slide(g, pos, player, ROOK_DIRS, 4)
  }

  function Queen(g: Grid, pos: Square, player: int): MoveLists
    requires OnBoard(pos)
  {
    Slide(g, pos, player, Block(), 9)
  }

  /*-Pawn-----------------------------------------------------------------*/

  /** P__'s quiet moves: one step ahead when that square is empty, then two steps ahead
      when the two-ahead square has touch value 0 and is empty. Off-board squares give no move. */
  function PawnQuiet(s: State, pos: Square, player: int): MoveLists
  {
    var one := Square(pos.rank + player, pos.file);
    if OnBoard(one) && Cell(s.b, one) == 0 then
      var two := Square(one.rank + player, pos.file);
      var ml := Add(NO_MOVES, one, false);
      if OnBoard(two) && !(Cell(s.t, two) != 0 || Cell(s.b, two) != 0) then Add(ml, two, false) else ml
    else NO_MOVES
  }

  /** The i-th forward diagonal (file + 1 for i = 0, file - 1 for i = 1) is a capture when it
      holds a value of the opponent's sign: a piece or a marker. */
  function PawnCapture(s: State, pos: Square, player: int, i: int, ml: MoveLists): MoveLists
  {
    var sq := Square(pos.rank + player, pos.file + 1 - 2 * i);
    if OnBoard(sq) && Signum(Cell(s.b, sq)) == -player then Add(ml, sq, true) else ml
  }

  /** The lists after the quiet moves and the first n diagonals. */
  function PawnCaptures(s: State, pos: Square, player: int, n: nat): MoveLists
  {
    if n == 0 then PawnQuiet(s, pos, player)
    else PawnCapture(s, pos, player, n - 1, PawnCaptures(s, pos, player, n - 1))
  }

  function Pawn(s: State, pos: Square, player: int): MoveLists
  {
    PawnCaptures(s, pos, player, 2)
  }

  /*-Dispatch-------------------------------------------------------------*/

  /** The dispatch table over kinds PAWN..KING. */
  function Generate(kind: int, s: State, pos: Square, player: int): MoveLists
    requires PAWN <= kind <= KING && OnBoard(pos)
  {
    if kind == PAWN then Pawn(s, pos, player)
    else if kind == KNIGHT then Knight(s.b, pos, player)
    else if kind == BISHOP then Bishop(s.b, pos, player)
    else if kind == ROOK then Rook(s.b, pos, player)
    else if kind == QUEEN then Queen(s.b, pos, player)
    else King(s.b, pos, player)
  }

  /*-Methods--------------------------------------------------------------*/

  /** cast_dydx: walk from pos in direction (dy, dx), appending to ml. */
  method CastRay(B: Board, ghost g: Grid, ml: MoveLists, pos: Square, dy: int, dx: int, player: int)
    returns (out: MoveLists)
    requires B.Valid() && g == B.pieces && OnBoard(pos) && IsDirection(Delta(dy, dx))
    ensures out == Ray(g, pos, Delta(dy, dx), player, 1, ml)
  {
    ghost var d := Delta(dy, dx);
    out := ml;
    var i := 1;
    while true
      invariant 1 <= i <= 8
      invariant Ray(g, pos, d, player, i, out) == Ray(g, pos, d, player, 1, ml)
      decreases 8 - i
    {
      var y, x := pos.rank + dy * i, pos.file + dx * i;
      var sq := Square(y, x);
      assert sq == Step(pos, d, i);
      if y < 0 || y >= 8 || x < 0 || x >= 8 {
        assert Ray(g, pos, d, player, i, out) == out;
        return;
      }
      var v := B.b[y, x];
      assert v == Cell(g, sq);
      var cap := v != 0 && Abs(v) != EP_FLAG;
      ghost var prev := out;
      if Signum(v) != player {
        out := Add(out, sq, cap);
      }
      if cap {
        assert Ray(g, pos, d, player, i, prev) == out;
        return;
      }
      StepBound(pos, d, i);
      assert Ray(g, pos, d, player, i, prev) == Ray(g, pos, d, player, i + 1, out);
      i := i + 1;
    }
  }

  /** P__ */
  method PawnMoves(B: Board, pos: Square, player: int) returns (ml: MoveLists)
    requires B.Valid() && OnBoard(pos)
    ensures ml == Pawn(B.Snapshot(), pos, player)
  {
    ghost var s := B.Snapshot();
    ml := NO_MOVES;
    var y, x := pos.rank + player, pos.file;
    if 0 <= y < 8 && B.b[y, x] == 0 {
      ml := Add(ml, Square(y, x), false);
      y := y + player;
      if 0 <= y < 8 && !(B.t[y, x] != 0 || B.b[y, x] != 0) {
        ml := Add(ml, Square(y, x), false);
      }
    }
    y := pos.rank + player;
    for i := 0 to 2
      invariant ml == PawnCaptures(s, pos, player, i)
    {
      x := pos.file + 1 - 2 * i;
      if 0 <= y < 8 && 0 <= x < 8 && Signum(B.b[y, x]) == -player {
        ml := Add(ml, Square(y, x), true);
      }
    }
  }

  /** N__ */
  method KnightMoves(B: Board, pos: Square, player: int) returns (ml: MoveLists)
    requires B.Valid() && OnBoard(pos)
    ensures ml == Knight(B.pieces, pos, player)
  {
    ghost var g := B.pieces;
    ml := NO_MOVES;
    for i := 0 to 8
      invariant ml == Leaps(g, pos, player, KNIGHT_OFFSETS, i)
    {
      var y, x := pos.rank + KNIGHT_OFFSETS[i].dy, pos.file + KNIGHT_OFFSETS[i].dx;
      if 0 <= y < 8 && 0 <= x < 8 && Signum(B.b[y, x]) != player {
        var cap := Abs(B.b[y, x]) != EP_FLAG && B.b[y, x] != 0;
        assert B.b[y, x] == Cell(g, Square(y, x));
        ml := Add(ml, Square(y, x), cap);
      }
      assert Offset(pos, KNIGHT_OFFSETS[i]) == Square(y, x);
    }
  }

  /** B__ */
  method BishopMoves(B: Board, pos: Square, player: int) returns (ml: MoveLists)
    requires B.Valid() && OnBoard(pos)
    ensures ml == Bishop(B.pieces, pos, player)
  {
    ghost var g := B.pieces;
    ml := NO_MOVES;
    for a := 0 to 2
      invariant ml == Slide(g, pos, player, BishopDirs(), 2 * a)
    {
      for b := 0 to 2
        invariant ml == Slide(g, pos, player, BishopDirs(), 2 * a + b)
      {
        var dy, dx := 1 - 2 * a, 1 - 2 * b;
        assert BishopDirs()[2 * a + b] == Delta(dy, dx);
        ml := CastRay(B, g, ml, pos, dy, dx, player);
      }
    }
  }

  /** R__ */
  method RookMoves(B: Board, pos: Square, player: int) returns (ml: MoveLists)
    requires B.Valid() && OnBoard(pos)
    ensures ml == Rook(B.pieces, pos, player)
  {
    ghost var g := B.pieces;
    ml := NO_MOVES;
    for a := 0 to 2
      invariant ml == Slide(g, pos, player, ROOK_DIRS, 2 * a)
    {
      for b := 0 to 2
        invariant ml == Slide(g, pos, player, ROOK_DIRS, 2 * a + b)
      {
        var notA := if a == 0 then 1 else 0;
        var dy, dx := a * (1 - 2 * b), notA * (1 - 2 * b);
        assert ROOK_DIRS[2 * a + b] == Delta(dy, dx);
        ml := CastRay(B, g, ml, pos, dy, dx, player);
      }
    }
  }

  /** Q__ */
  method QueenMoves(B: Board, pos: Square, player: int) returns (ml: MoveLists)
    requires B.Valid() && OnBoard(pos)
    ensures ml == Queen(B.pieces, pos, player)
  {
    ghost var g := B.pieces;
    ml := NO_MOVES;
    for dy := -1 to 2
      invariant ml == Slide(g, pos, player, Block(), 3 * (dy + 1))
    {
      for dx := -1 to 2
        invariant ml == Slide(g, pos, player, Block(), 3 * (dy + 1) + (dx + 1))
      {
        BlockAt(dy, dx);
        if dy == 0 && dx == 0 {
          continue;
        }
        ml := CastRay(B, g, ml, pos, dy, dx, player);
      }
    }
  }

  /** K__ */
  method KingMoves(B: Board, pos: Square, player: int) returns (ml: MoveLists)
    requires B.Valid() && OnBoard(pos)
    ensures ml == King(B.pieces, pos, player)
  {
    ghost var g := B.pieces;
    ml := NO_MOVES;
    for dy := -1 to 2
      invariant ml == Leaps(g, pos, player, Block(), 3 * (dy + 1))
    {
      for dx := -1 to 2
        invariant ml == Leaps(g, pos, player, Block(), 3 * (dy + 1) + (dx + 1))
      {
        BlockAt(dy, dx);
        ghost var prev := ml;
        if dy != 0 || dx != 0 {
          var y, x := pos.rank + dy, pos.file + dx;
          if 0 <= y < 8 && 0 <= x < 8 && Signum(B.b[y, x]) != player {
            var cap := Abs(B.b[y, x]) != EP_FLAG && B.b[y, x] != 0;
            assert B.b[y, x] == Cell(g, Square(y, x));
            ml := Add(ml, Square(y, x), cap);
          }
          assert Offset(pos, Delta(dy, dx)) == Square(y, x);
        }
      }
    }
  }

  /** list_moves[kind - 1](B, pos, player) */
  method ListMoves(B: Board, kind: int, pos: Square, player: int) returns (ml: MoveLists)
    requires B.Valid() && PAWN <= kind <= KING && OnBoard(pos)
    ensures ml == Generate(kind, B.Snapshot(), pos, player)
  {
    if kind == PAWN {
      ml := PawnMoves(B, pos, player);
    } else if kind == KNIGHT {
      ml := KnightMoves(B, pos, player);
    } else if kind == BISHOP {
      ml := BishopMoves(B, pos, player);
    } else if kind == ROOK {
      ml := RookMoves(B, pos, player);
    } else if kind == QUEEN {
      ml := QueenMoves(B, pos, player);
    } else {
      ml := KingMoves(B, pos, player);
    }
  }
}
