/** The board of the chess engine: piece codes, squares, the two 8x8 integer
    maps (pieces and touch map), their value view, the deep copy and the
    row-major piece lookup. */
module ChessBoard {

  // Piece ids. A piece of side `player` (+1 or -1) is stored as kind * player.
  const PAWN := 1
  const KNIGHT := 2
  const BISHOP := 3
  const ROOK := 4
  const QUEEN := 5
  const KING := 6
  const N_PCS := 6
  // An en-passant marker of side `player` is stored as player * EP_FLAG.
  const EP_FLAG := 99

  datatype Option<T> = None | Some(value: T)

  /** The sign of x: -1, 0 or 1. */
  function Signum(x: int): (r: int)
    ensures r == 1 <==> x > 0
    ensures r == -1 <==> x < 0
    ensures r == 0 <==> x == 0
  {
    (if x > 0 then 1 else 0) - (if x < 0 then 1 else 0)
  }

  function Abs(x: int): int
  {
    if x < 0 then -x else x
  }

  predicate IsSide(player: int)
  {
    player == 1 || player == -1
  }

  /** A square is (rank, file); file 0 is the h-file and side +1 moves toward higher ranks. */
  datatype Square = Square(rank: int, file: int)

  /** A move is an ordered pair of squares. */
  datatype Move = Move(from: Square, to: Square)

  predicate OnBoard(sq: Square)
  {
    0 <= sq.rank < 8 && 0 <= sq.file < 8
  }

  /** Row-major order on squares: the order in which `find` and `can_move` visit them. */
  predicate Before(a: Square, b: Square)
  {
    a.rank < b.rank || (a.rank == b.rank && a.file < b.file)
  }

  /** An 8x8 map, indexed g[rank][file]. */
  type Grid = g: seq<seq<int>> | |g| == 8 && forall r :: 0 <= r < 8 ==> |g[r]| == 8
    witness seq(8, _ => seq(8, _ => 0))

  /** The value view of a board: the piece map and the touch map. */
  datatype State = State(b: Grid, t: Grid)

  function Cell(g: Grid, sq: Square): int
    requires OnBoard(sq)
  {
    g[sq.rank][sq.file]
  }

  /** g with the square (rank, file) overwritten by v. */
  function Set(g: Grid, rank: int, file: int, v: int): (h: Grid)
    requires 0 <= rank < 8 && 0 <= file < 8
    ensures forall r, f :: 0 <= r < 8 && 0 <= f < 8 ==>
      h[r][f] == if r == rank && f == file then v else g[r][f]
  {
    g[rank := g[rank][file := v]]
  }

  /** Two grids that agree on every square are equal. */
  lemma GridExt(g: Grid, h: Grid)
    requires forall r, f :: 0 <= r < 8 && 0 <= f < 8 ==> g[r][f] == h[r][f]
    ensures g == h
  {
    forall r | 0 <= r < 8
      ensures g[r] == h[r]
    {
      assert forall f :: 0 <= f < 8 ==> g[r][f] == h[r][f];
    }
  }

  /** The playing board: two 8x8 maps updated in place. The ghost fields hold their
      value view, which Valid() ties to the arrays square by square. */
  class Board {
    var b: array2<int>  // piece map: kind * side, side * EP_FLAG or 0
    var t: array2<int>  // touch map
    ghost var pieces: Grid
    ghost var touch: Grid

    ghost predicate Valid()
      reads this, b, t
    {
      b.Length0 == 8 && b.Length1 == 8 && t.Length0 == 8 && t.Length1 == 8 && b != t &&
      (forall r, f :: 0 <= r < 8 && 0 <= f < 8 ==> pieces[r][f] == b[r, f]) &&
      (forall r, f :: 0 <= r < 8 && 0 <= f < 8 ==> touch[r][f] == t[r, f])
    }

    ghost function Snapshot(): State
      reads this
    {
      State(pieces, touch)
    }

    /** A board over the two given maps, as the struct `Board` is built from two row arrays. */
    constructor (pb: array2<int>, pt: array2<int>)
      requires pb.Length0 == 8 && pb.Length1 == 8 && pt.Length0 == 8 && pt.Length1 == 8 && pb != pt
      ensures Valid() && b == pb && t == pt
      ensures forall r, f :: 0 <= r < 8 && 0 <= f < 8 ==> pieces[r][f] == pb[r, f] && touch[r][f] == pt[r, f]
    {
      b, t := pb, pt;
      pieces := seq(8, r requires 0 <= r < 8 reads pb =>
        seq(8, f requires 0 <= f < 8 reads pb => pb[r, f]));
      touch := seq(8, r requires 0 <= r < 8 reads pt =>
        seq(8, f requires 0 <= f < 8 reads pt => pt[r, f]));
    }
  }

  /** Deep copy: fresh arrays filled square by square with both maps. */
  method CopyBoard(B: Board) returns (C: Board)
    requires B.Valid()
    ensures C.Valid() && fresh(C) && fresh(C.b) && fresh(C.t)
    ensures C.Snapshot() == B.Snapshot()
  {
    var cb := new int[8, 8];
    var ct := new int[8, 8];
    for i := 0 to 8
      invariant forall r, f :: 0 <= r < i && 0 <= f < 8 ==> cb[r, f] == B.b[r, f] && ct[r, f] == B.t[r, f]
    {
      for j := 0 to 8
        invariant forall r, f :: 0 <= r < i && 0 <= f < 8 ==> cb[r, f] == B.b[r, f] && ct[r, f] == B.t[r, f]
        invariant forall f :: 0 <= f < j ==> cb[i, f] == B.b[i, f] && ct[i, f] == B.t[i, f]
      {
        cb[i, j] := B.b[i, j];
        ct[i, j] := B.t[i, j];
      }
    }
    C := new Board(cb, ct);
    GridExt(C.pieces, B.pieces);
    GridExt(C.touch, B.touch);
  }

  /** The first square at or after (rank, file) in row-major order that holds v. */
  function FindFrom(g: Grid, v: int, rank: int, file: int): Option<Square>
    requires 0 <= rank <= 8 && 0 <= file <= 8
    decreases 8 - rank, 8 - file
  {
    if rank == 8 then None
    else if file == 8 then FindFrom(g, v, rank + 1, 0)
    else if g[rank][file] == v then Some(Square(rank, file))
    else FindFrom(g, v, rank, file + 1)
  }

  /** The first square in row-major order that holds v, as `find` searches for piece * player. */
  function FindFirst(g: Grid, v: int): Option<Square>
  {
    FindFrom(g, v, 0, 0)
  }

  lemma {:induction false} FindFromCorrect(g: Grid, v: int, rank: int, file: int)
    requires 0 <= rank <= 8 && 0 <= file <= 8
    ensures var r := FindFrom(g, v, rank, file);
      match r
      case Some(sq) =>
        OnBoard(sq) && Cell(g, sq) == v && !Before(sq, Square(rank, file)) &&
        forall q :: OnBoard(q) && !Before(q, Square(rank, file)) && Before(q, sq) ==> Cell(g, q) != v
      case None =>
        forall q :: OnBoard(q) && !Before(q, Square(rank, file)) ==> Cell(g, q) != v
    decreases 8 - rank, 8 - file
  {
    if rank == 8 {
    } else if file == 8 {
      FindFromCorrect(g, v, rank + 1, 0);
    } else if g[rank][file] == v {
    } else {
      FindFromCorrect(g, v, rank, file + 1);
    }
  }

  /** `find` returns the first row-major square whose value is exactly v, or nothing when no square holds v. */
  lemma FindFirstCorrect(g: Grid, v: int)
    ensures match FindFirst(g, v)
      case Some(sq) =>
        OnBoard(sq) && Cell(g, sq) == v && forall q :: OnBoard(q) && Before(q, sq) ==> Cell(g, q) != v
      case None =>
        forall q :: OnBoard(q) ==> Cell(g, q) != v
  {
    FindFromCorrect(g, v, 0, 0);
  }

  /** `find`: scan the piece map row by row for piece * player. */
  method Find(B: Board, piece: int, player: int) returns (pos: Option<Square>)
    requires B.Valid()
    ensures pos == FindFirst(B.pieces, piece * player)
  {
    ghost var g := B.pieces;
    var v := piece * player;
    for i := 0 to 8
      invariant FindFirst(g, v) == FindFrom(g, v, i, 0)
    {
      for j := 0 to 8
        invariant FindFirst(g, v) == FindFrom(g, v, i, j)
      {
        if B.b[i, j] == v {
          return Some(Square(i, j));
        }
      }
    }
    return None;
  }
}
