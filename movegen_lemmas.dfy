/** What the pseudo-legal move generators produce, square by square. */
module MoveGenLemmas {
  import opened ChessBoard
  import opened MoveGen

  /*-Knight and king------------------------------------------------------*/

  /** sq is reached by one of the first n offsets (the offset (0, 0) excluded). */
  ghost predicate Reaches(pos: Square, offs: seq<Delta>, n: nat, sq: Square)
    requires n <= |offs|
  {
    exists k :: 0 <= k < n && offs[k] != Delta(0, 0) && Offset(pos, offs[k]) == sq
  }

  /** A leaping piece reports a reached square iff it is on the board and does not hold a
      value of its own sign; it is a capture iff that value is a real piece. */
  lemma {:induction false} LeapsMember(g: Grid, pos: Square, player: int, offs: seq<Delta>, n: nat, sq: Square)
    requires n <= |offs|
    ensures sq in Leaps(g, pos, player, offs, n).quiet <==>
      Reaches(pos, offs, n, sq) && OnBoard(sq) && Signum(Cell(g, sq)) != player && !IsPieceValue(Cell(g, sq))
    ensures sq in Leaps(g, pos, player, offs, n).captures <==>
      Reaches(pos, offs, n, sq) && OnBoard(sq) && Signum(Cell(g, sq)) != player && IsPieceValue(Cell(g, sq))
  {
    if n > 0 {
      LeapsMember(g, pos, player, offs, n - 1, sq);
      var d := offs[n - 1];
      if Reaches(pos, offs, n, sq) && !Reaches(pos, offs, n - 1, sq) {
        var k :| 0 <= k < n && offs[k] != Delta(0, 0) && Offset(pos, offs[k]) == sq;
        assert k == n - 1;
      }
      if d != Delta(0, 0) && Offset(pos, d) == sq {
        assert Reaches(pos, offs, n, sq);
      }
      if Reaches(pos, offs, n - 1, sq) {
        var k :| 0 <= k < n - 1 && offs[k] != Delta(0, 0) && Offset(pos, offs[k]) == sq;
        assert Reaches(pos, offs, n, sq);
      }
    }
  }

  predicate IsKnightJump(dy: int, dx: int)
  {
    (Abs(dy) == 1 && Abs(dx) == 2) || (Abs(dy) == 2 && Abs(dx) == 1)
  }

  predicate IsKingStep(dy: int, dx: int)
  {
    -1 <= dy <= 1 && -1 <= dx <= 1 && !(dy == 0 && dx == 0)
  }

  lemma KnightReach(pos: Square, sq: Square)
    ensures Reaches(pos, KNIGHT_OFFSETS, 8, sq) <==> IsKnightJump(sq.rank - pos.rank, sq.file - pos.file)
  {
    var d := Delta(sq.rank - pos.rank, sq.file - pos.file);
    if IsKnightJump(d.dy, d.dx) {
      assert d in KNIGHT_OFFSETS;
      var k :| 0 <= k < 8 && KNIGHT_OFFSETS[k] == d;
      assert Offset(pos, KNIGHT_OFFSETS[k]) == sq;
    }
  }

  lemma KingReach(pos: Square, sq: Square)
    ensures Reaches(pos, Block(), 9, sq) <==> IsKingStep(sq.rank - pos.rank, sq.file - pos.file)
  {
    var dy, dx := sq.rank - pos.rank, sq.file - pos.file;
    if IsKingStep(dy, dx) {
      BlockAt(dy, dx);
      assert Offset(pos, Block()[3 * (dy + 1) + (dx + 1)]) == sq;
    }
  }

  /** N__: a square is reported iff it is a knight's jump away, on the board and not of the
      mover's sign; it is a capture iff it holds a real piece, so an enemy marker is quiet and
      a friendly marker is dropped. */
  lemma KnightTargets(g: Grid, pos: Square, player: int, sq: Square)
    ensures sq in Knight(g, pos, player).quiet <==>
      OnBoard(sq) && IsKnightJump(sq.rank - pos.rank, sq.file - pos.file) &&
      Signum(Cell(g, sq)) != player && !IsPieceValue(Cell(g, sq))
    ensures sq in Knight(g, pos, player).captures <==>
      OnBoard(sq) && IsKnightJump(sq.rank - pos.rank, sq.file - pos.file) &&
      Signum(Cell(g, sq)) != player && IsPieceValue(Cell(g, sq))
  {
    LeapsMember(g, pos, player, KNIGHT_OFFSETS, 8, sq);
    KnightReach(pos, sq);
  }

  /** K__: the same rule over the eight adjacent squares. */
  lemma KingTargets(g: Grid, pos: Square, player: int, sq: Square)
    ensures sq in King(g, pos, player).quiet <==>
      OnBoard(sq) && IsKingStep(sq.rank - pos.rank, sq.file - pos.file) &&
      Signum(Cell(g, sq)) != player && !IsPieceValue(Cell(g, sq))
    ensures sq in King(g, pos, player).captures <==>
      OnBoard(sq) && IsKingStep(sq.rank - pos.rank, sq.file - pos.file) &&
      Signum(Cell(g, sq)) != player && IsPieceValue(Cell(g, sq))
  {
    LeapsMember(g, pos, player, Block(), 9, sq);
    KingReach(pos, sq);
  }

  /*-Rays-----------------------------------------------------------------*/

  /** Every square of the ray from step i up to (not including) step j is on the board and
      holds no real piece. */
  ghost predicate RayOpen(g: Grid, pos: Square, d: Delta, i: int, j: int)
  {
    forall k :: i <= k < j ==> OnBoard(Step(pos, d, k)) && !IsPieceValue(Cell(g, Step(pos, d, k)))
  }

  /** sq is a square of the ray at or after step i, all squares before it are open, and it
      holds an empty or marker value not of the mover's sign. */
  ghost predicate RayQuietAt(g: Grid, pos: Square, d: Delta, player: int, i: int, sq: Square)
  {
    exists j :: i <= j && Step(pos, d, j) == sq && OnBoard(sq) && RayOpen(g, pos, d, i, j) &&
      !IsPieceValue(Cell(g, sq)) && Signum(Cell(g, sq)) != player
  }

  /** sq is the first real piece on the ray at or after step i, and it is the opponent's. */
  ghost predicate RayCaptureAt(g: Grid, pos: Square, d: Delta, player: int, i: int, sq: Square)
  {
    exists j :: i <= j && Step(pos, d, j) == sq && OnBoard(sq) && RayOpen(g, pos, d, i, j) &&
      IsPieceValue(Cell(g, sq)) && Signum(Cell(g, sq)) == -player
  }

  lemma StepInjective(pos: Square, d: Delta, i: int, j: int)
    requires IsDirection(d) && Step(pos, d, i) == Step(pos, d, j)
    ensures i == j
  {
    if d.dy == 0 {
      assert d.dx * i == d.dx * j;
    } else {
      assert d.dy * i == d.dy * j;
    }
  }

  /** How RayQuietAt at step i decomposes into step i and the rest of the ray. */
  lemma RayQuietUnfold(g: Grid, pos: Square, d: Delta, player: int, i: int, sq: Square)
    ensures var s := Step(pos, d, i);
      RayQuietAt(g, pos, d, player, i, sq) <==>
        OnBoard(s) && !IsPieceValue(Cell(g, s)) &&
        ((sq == s && Signum(Cell(g, s)) != player) || RayQuietAt(g, pos, d, player, i + 1, sq))
  {
    var s := Step(pos, d, i);
    if RayQuietAt(g, pos, d, player, i, sq) {
      var j :| i <= j && Step(pos, d, j) == sq && OnBoard(sq) && RayOpen(g, pos, d, i, j) &&
        !IsPieceValue(Cell(g, sq)) && Signum(Cell(g, sq)) != player;
      if j > i {
        assert OnBoard(Step(pos, d, i)) && !IsPieceValue(Cell(g, Step(pos, d, i)));
        assert RayOpen(g, pos, d, i + 1, j);
      }
    }
    if OnBoard(s) && !IsPieceValue(Cell(g, s)) {
      if sq == s && Signum(Cell(g, s)) != player {
        assert RayOpen(g, pos, d, i, i);
      }
      if RayQuietAt(g, pos, d, player, i + 1, sq) {
        var j :| i + 1 <= j && Step(pos, d, j) == sq && OnBoard(sq) && RayOpen(g, pos, d, i + 1, j) &&
          !IsPieceValue(Cell(g, sq)) && Signum(Cell(g, sq)) != player;
        assert RayOpen(g, pos, d, i, j);
      }
    }
  }

  /** How RayCaptureAt at step i decomposes into step i and the rest of the ray. */
  lemma RayCaptureUnfold(g: Grid, pos: Square, d: Delta, player: int, i: int, sq: Square)
    ensures var s := Step(pos, d, i);
      RayCaptureAt(g, pos, d, player, i, sq) <==>
        OnBoard(s) &&
        ((sq == s && IsPieceValue(Cell(g, s)) && Signum(Cell(g, s)) == -player) ||
         (!IsPieceValue(Cell(g, s)) && RayCaptureAt(g, pos, d, player, i + 1, sq)))
  {
    var s := Step(pos, d, i);
    if RayCaptureAt(g, pos, d, player, i, sq) {
      var j :| i <= j && Step(pos, d, j) == sq && OnBoard(sq) && RayOpen(g, pos, d, i, j) &&
        IsPieceValue(Cell(g, sq)) && Signum(Cell(g, sq)) == -player;
      if j > i {
        assert OnBoard(Step(pos, d, i)) && !IsPieceValue(Cell(g, Step(pos, d, i)));
        assert RayOpen(g, pos, d, i + 1, j);
      }
    }
    if OnBoard(s) {
      if sq == s && IsPieceValue(Cell(g, s)) && Signum(Cell(g, s)) == -player {
        assert RayOpen(g, pos, d, i, i);
      }
      if !IsPieceValue(Cell(g, s)) && RayCaptureAt(g, pos, d, player, i + 1, sq) {
        var j :| i + 1 <= j && Step(pos, d, j) == sq && OnBoard(sq) && RayOpen(g, pos, d, i + 1, j) &&
          IsPieceValue(Cell(g, sq)) && Signum(Cell(g, sq)) == -player;
        assert RayOpen(g, pos, d, i, j);
      }
    }
  }

  /** cast_dydx reports, on top of what the lists held, exactly the open squares of the ray
      not of the mover's sign as quiet moves, and the first real piece as a capture iff it is
      the opponent's; it never leaves the board. */
  lemma {:induction false} RayMember(g: Grid, pos: Square, d: Delta, player: int, i: int, ml: MoveLists, sq: Square)
    requires OnBoard(pos) && IsDirection(d) && 1 <= i && IsSide(player)
    ensures sq in Ray(g, pos, d, player, i, ml).quiet <==> sq in ml.quiet || RayQuietAt(g, pos, d, player, i, sq)
    ensures sq in Ray(g, pos, d, player, i, ml).captures <==> sq in ml.captures || RayCaptureAt(g, pos, d, player, i, sq)
    decreases 8 - i
  {
    RayQuietUnfold(g, pos, d, player, i, sq);
    RayCaptureUnfold(g, pos, d, player, i, sq);
    var s := Step(pos, d, i);
    if OnBoard(s) && !IsPieceValue(Cell(g, s)) {
      StepBound(pos, d, i);
      var next := if Signum(Cell(g, s)) != player then Add(ml, s, false) else ml;
      RayMember(g, pos, d, player, i + 1, next, sq);
    }
  }

  /** Nothing beyond the first real piece on a ray is reported. */
  lemma RayStopsAtPiece(g: Grid, pos: Square, d: Delta, player: int, j: int, k: int)
    requires OnBoard(pos) && IsDirection(d) && IsSide(player) && 1 <= j < k
    requires OnBoard(Step(pos, d, j)) && IsPieceValue(Cell(g, Step(pos, d, j)))
    ensures Step(pos, d, k) !in Ray(g, pos, d, player, 1, NO_MOVES).quiet
    ensures Step(pos, d, k) !in Ray(g, pos, d, player, 1, NO_MOVES).captures
  {
    var sq := Step(pos, d, k);
    RayMember(g, pos, d, player, 1, NO_MOVES, sq);
    if RayQuietAt(g, pos, d, player, 1, sq) {
      var j' :| 1 <= j' && Step(pos, d, j') == sq && OnBoard(sq) && RayOpen(g, pos, d, 1, j') &&
        !IsPieceValue(Cell(g, sq)) && Signum(Cell(g, sq)) != player;
      StepInjective(pos, d, j', k);
    }
    if RayCaptureAt(g, pos, d, player, 1, sq) {
      var j' :| 1 <= j' && Step(pos, d, j') == sq && OnBoard(sq) && RayOpen(g, pos, d, 1, j') &&
        IsPieceValue(Cell(g, sq)) && Signum(Cell(g, sq)) == -player;
      StepInjective(pos, d, j', k);
    }
  }

  /** B__, R__ and Q__ report exactly what their rays report. */
  lemma {:induction false} SlideMember(g: Grid, pos: Square, player: int, dirs: seq<Delta>, n: nat, sq: Square)
    requires OnBoard(pos) && n <= |dirs| && IsSide(player)
    requires forall k :: 0 <= k < |dirs| ==> IsUnit(dirs[k])
    ensures sq in Slide(g, pos, player, dirs, n).quiet <==>
      exists k :: 0 <= k < n && dirs[k] != Delta(0, 0) && RayQuietAt(g, pos, dirs[k], player, 1, sq)
    ensures sq in Slide(g, pos, player, dirs, n).captures <==>
      exists k :: 0 <= k < n && dirs[k] != Delta(0, 0) && RayCaptureAt(g, pos, dirs[k], player, 1, sq)
  {
    if n > 0 {
      SlideMember(g, pos, player, dirs, n - 1, sq);
      var d := dirs[n - 1];
      if d != Delta(0, 0) {
        RayMember(g, pos, d, player, 1, Slide(g, pos, player, dirs, n - 1), sq);
      }
    }
  }

  /*-Pawn-----------------------------------------------------------------*/

  /** P__: one step iff the square ahead is on the board and empty; two steps iff in addition
      the two-ahead square is on the board with touch value 0 and empty; a diagonal capture iff
      the forward diagonal holds a value of the opponent's sign, enemy markers included. */
  lemma PawnTargets(s: State, pos: Square, player: int, sq: Square)
    requires IsSide(player)
    ensures var one := Square(pos.rank + player, pos.file);
      var two := Square(pos.rank + 2 * player, pos.file);
      sq in Pawn(s, pos, player).quiet <==>
        OnBoard(one) && Cell(s.b, one) == 0 &&
        (sq == one || (sq == two && OnBoard(two) && Cell(s.t, two) == 0 && Cell(s.b, two) == 0))
    ensures sq in Pawn(s, pos, player).captures <==>
      OnBoard(sq) && sq.rank == pos.rank + player && (sq.file == pos.file + 1 || sq.file == pos.file - 1) &&
      Signum(Cell(s.b, sq)) == -player
  {
    var q := PawnQuiet(s, pos, player);
    assert Pawn(s, pos, player).quiet == q.quiet;
    assert q.captures == [];
    var c0 := Square(pos.rank + player, pos.file + 1);
    var c1 := Square(pos.rank + player, pos.file - 1);
    assert PawnCaptures(s, pos, player, 1).captures ==
      if OnBoard(c0) && Signum(Cell(s.b, c0)) == -player then [c0] else [];
  }

  /*-All kinds------------------------------------------------------------*/

  /** A slider's quiet squares are empty or markers not of the mover's sign, its captures are
      opponent's pieces, and neither is the origin. */
  lemma SlideSound(g: Grid, pos: Square, player: int, dirs: seq<Delta>, sq: Square)
    requires OnBoard(pos) && IsSide(player)
    requires forall k :: 0 <= k < |dirs| ==> IsUnit(dirs[k])
    ensures sq in Slide(g, pos, player, dirs, |dirs|).quiet ==>
      OnBoard(sq) && sq != pos && !IsPieceValue(Cell(g, sq)) && Signum(Cell(g, sq)) != player
    ensures sq in Slide(g, pos, player, dirs, |dirs|).captures ==>
      OnBoard(sq) && sq != pos && IsPieceValue(Cell(g, sq)) && Signum(Cell(g, sq)) == -player
  {
    SlideMember(g, pos, player, dirs, |dirs|, sq);
    if sq in Slide(g, pos, player, dirs, |dirs|).quiet {
      var k :| 0 <= k < |dirs| && dirs[k] != Delta(0, 0) && RayQuietAt(g, pos, dirs[k], player, 1, sq);
      var j :| 1 <= j && Step(pos, dirs[k], j) == sq && OnBoard(sq) && RayOpen(g, pos, dirs[k], 1, j) &&
        !IsPieceValue(Cell(g, sq)) && Signum(Cell(g, sq)) != player;
      if sq == pos {
        assert Step(pos, dirs[k], 0) == pos;
        StepInjective(pos, dirs[k], j, 0);
      }
    }
    if sq in Slide(g, pos, player, dirs, |dirs|).captures {
      var k :| 0 <= k < |dirs| && dirs[k] != Delta(0, 0) && RayCaptureAt(g, pos, dirs[k], player, 1, sq);
      var j :| 1 <= j && Step(pos, dirs[k], j) == sq && OnBoard(sq) && RayOpen(g, pos, dirs[k], 1, j) &&
        IsPieceValue(Cell(g, sq)) && Signum(Cell(g, sq)) == -player;
      if sq == pos {
        assert Step(pos, dirs[k], 0) == pos;
        StepInjective(pos, dirs[k], j, 0);
      }
    }
  }

  /** The generator contract: every reported square is on the board and differs from the
      origin; a quiet square holds an empty or marker value not of the mover's sign; a capture
      square holds a value of the opponent's sign (a real piece for every kind but the pawn);
      no square is in both lists. */
  lemma GenerateSound(kind: int, s: State, pos: Square, player: int, sq: Square)
    requires PAWN <= kind <= KING && OnBoard(pos) && IsSide(player)
    ensures sq in Generate(kind, s, pos, player).quiet ==>
      OnBoard(sq) && sq != pos && !IsPieceValue(Cell(s.b, sq)) && Signum(Cell(s.b, sq)) != player
    ensures sq in Generate(kind, s, pos, player).captures ==>
      OnBoard(sq) && sq != pos && Signum(Cell(s.b, sq)) == -player && (kind != PAWN ==> IsPieceValue(Cell(s.b, sq)))
    ensures !(sq in Generate(kind, s, pos, player).quiet && sq in Generate(kind, s, pos, player).captures)
  {
    if kind == PAWN {
      PawnTargets(s, pos, player, sq);
    } else if kind == KNIGHT {
      KnightTargets(s.b, pos, player, sq);
    } else if kind == KING {
      KingTargets(s.b, pos, player, sq);
    } else if kind == BISHOP {
      SlideSound(s.b, pos, player, BishopDirs(), sq);
    } else if kind == ROOK {
      SlideSound(s.b, pos, player, ROOK_DIRS, sq);
    } else {
      SlideSound(s.b, pos, player, Block(), sq);
    }
  }

  /*-Capture symmetry-----------------------------------------------------*/

  /** The direction opposite to d. */
  function Neg(d: Delta): Delta
  {
    Delta(-d.dy, -d.dx)
  }

  lemma NegDirection(d: Delta)
    requires IsDirection(d)
    ensures IsDirection(Neg(d)) && Neg(d) != Delta(0, 0)
  {
  }

  /** Every direction of the table has its opposite in the table too. */
  predicate ClosedUnderNeg(dirs: seq<Delta>)
  {
    forall k :: 0 <= k < |dirs| ==> Neg(dirs[k]) in dirs
  }

  /** The index of the opposite of direction k. */
  lemma OppositeIndex(dirs: seq<Delta>, k: int) returns (k': int)
    requires ClosedUnderNeg(dirs) && 0 <= k < |dirs|
    ensures 0 <= k' < |dirs| && dirs[k'] == Neg(dirs[k])
  {
    assert Neg(dirs[k]) in dirs;
    k' :| 0 <= k' < |dirs| && dirs[k'] == Neg(dirs[k]);
  }

  lemma BishopDirsClosed()
    ensures ClosedUnderNeg(BishopDirs())
  {
    var dirs := BishopDirs();
    forall k | 0 <= k < 4
      ensures Neg(dirs[k]) in dirs
    {
      assert dirs[3 - k] == Neg(dirs[k]);
    }
  }

  lemma RookDirsClosed()
    ensures ClosedUnderNeg(ROOK_DIRS)
  {
    forall k | 0 <= k < 4
      ensures Neg(ROOK_DIRS[k]) in ROOK_DIRS
    {
      var k' := if k % 2 == 0 then k + 1 else k - 1;
      assert ROOK_DIRS[k'] == Neg(ROOK_DIRS[k]);
    }
  }

  lemma BishopDirsUnit()
    ensures forall k :: 0 <= k < |BishopDirs()| ==> IsUnit(BishopDirs()[k])
  {
    var dirs := BishopDirs();
    forall k | 0 <= k < 4
      ensures IsUnit(dirs[k])
    {
    }
  }

  lemma BlockUnit()
    ensures forall k :: 0 <= k < |Block()| ==> IsUnit(Block()[k])
  {
    var dirs := Block();
    forall k | 0 <= k < 9
      ensures IsUnit(dirs[k])
    {
      BlockAt(dirs[k].dy, dirs[k].dx);
    }
  }

  lemma RookDirsUnit()
    ensures forall k :: 0 <= k < |ROOK_DIRS| ==> IsUnit(ROOK_DIRS[k])
  {
    forall k | 0 <= k < 4
      ensures IsUnit(ROOK_DIRS[k])
    {
    }
  }

  lemma BlockClosed()
    ensures ClosedUnderNeg(Block())
  {
    var dirs := Block();
    forall k | 0 <= k < 9
      ensures Neg(dirs[k]) in dirs
    {
      BlockAt(-dirs[k].dy, -dirs[k].dx);
    }
  }

  /** Walking j steps along d and then k steps back lands on step j - k. */
  lemma StepBack(pos: Square, d: Delta, j: int, k: int)
    ensures Step(Step(pos, d, j), Neg(d), k) == Step(pos, d, j - k)
  {
    assert d.dy * (j - k) == d.dy * j - d.dy * k;
    assert d.dx * (j - k) == d.dx * j - d.dx * k;
  }

  /** A ray from pos that captures the piece on q, seen backwards: the ray from q in the
      opposite direction passes the same open squares and captures the piece on pos. */
  lemma RayCaptureReverse(g: Grid, pos: Square, d: Delta, player: int, q: Square)
    requires OnBoard(pos) && IsDirection(d)
    requires IsPieceValue(Cell(g, pos)) && Signum(Cell(g, pos)) == player
    requires RayCaptureAt(g, pos, d, player, 1, q)
    ensures RayCaptureAt(g, q, Neg(d), -player, 1, pos)
  {
    var j :| 1 <= j && Step(pos, d, j) == q && OnBoard(q) && RayOpen(g, pos, d, 1, j) &&
      IsPieceValue(Cell(g, q)) && Signum(Cell(g, q)) == -player;
    StepBack(pos, d, j, j);
    assert Step(pos, d, 0) == pos;
    forall k | 1 <= k < j
      ensures OnBoard(Step(q, Neg(d), k)) && !IsPieceValue(Cell(g, Step(q, Neg(d), k)))
    {
      StepBack(pos, d, j, k);
    }
    assert RayOpen(g, q, Neg(d), 1, j);
  }

  /** Some non-zero direction of the table has a ray from pos that captures on q. */
  ghost predicate SomeRayCaptures(g: Grid, pos: Square, player: int, dirs: seq<Delta>, q: Square)
  {
    exists k :: 0 <= k < |dirs| && dirs[k] != Delta(0, 0) && RayCaptureAt(g, pos, dirs[k], player, 1, q)
  }

  /** A ray from pos captures the piece on q only if a ray from q, for the other side,
      captures the piece on pos, when the directions are closed under negation. */
  lemma SomeRayCapturesReverse(g: Grid, pos: Square, q: Square, player: int, dirs: seq<Delta>)
    requires OnBoard(pos) && OnBoard(q)
    requires forall k :: 0 <= k < |dirs| ==> IsUnit(dirs[k])
    requires ClosedUnderNeg(dirs)
    requires IsPieceValue(Cell(g, pos)) && Signum(Cell(g, pos)) == player
    requires SomeRayCaptures(g, pos, player, dirs, q)
    ensures SomeRayCaptures(g, q, -player, dirs, pos)
  {
    var k :| 0 <= k < |dirs| && dirs[k] != Delta(0, 0) && RayCaptureAt(g, pos, dirs[k], player, 1, q);
    var d := dirs[k];
    RayCaptureReverse(g, pos, d, player, q);
    var k' := OppositeIndex(dirs, k);
    NegDirection(d);
    assert dirs[k'] != Delta(0, 0) && RayCaptureAt(g, q, dirs[k'], -player, 1, pos);
  }

  /** Captures of a slider are symmetric between two real pieces of opposite sides. */
  lemma SlideCapturesSymmetric(g: Grid, pos: Square, q: Square, player: int, dirs: seq<Delta>)
    requires OnBoard(pos) && OnBoard(q) && IsSide(player)
    requires forall k :: 0 <= k < |dirs| ==> IsUnit(dirs[k])
    requires ClosedUnderNeg(dirs)
    requires IsPieceValue(Cell(g, pos)) && Signum(Cell(g, pos)) == player
    requires IsPieceValue(Cell(g, q)) && Signum(Cell(g, q)) == -player
    ensures q in Slide(g, pos, player, dirs, |dirs|).captures <==> pos in Slide(g, q, -player, dirs, |dirs|).captures
  {
    SlideMember(g, pos, player, dirs, |dirs|, q);
    SlideMember(g, q, -player, dirs, |dirs|, pos);
    assert q in Slide(g, pos, player, dirs, |dirs|).captures <==> SomeRayCaptures(g, pos, player, dirs, q);
    assert pos in Slide(g, q, -player, dirs, |dirs|).captures <==> SomeRayCaptures(g, q, -player, dirs, pos);
    if SomeRayCaptures(g, pos, player, dirs, q) {
      SomeRayCapturesReverse(g, pos, q, player, dirs);
    }
    if SomeRayCaptures(g, q, -player, dirs, pos) {
      SomeRayCapturesReverse(g, q, pos, -player, dirs);
    }
  }

  /** A pawn captures diagonally one rank forward, so pawn captures are symmetric. */
  lemma PawnCapturesSymmetric(s: State, pos: Square, q: Square, player: int)
    requires OnBoard(pos) && OnBoard(q) && IsSide(player)
    requires Signum(Cell(s.b, pos)) == player && Signum(Cell(s.b, q)) == -player
    ensures q in Pawn(s, pos, player).captures <==> pos in Pawn(s, q, -player).captures
  {
    PawnTargets(s, pos, player, q);
    PawnTargets(s, q, -player, pos);
  }

  /** Knight jumps are symmetric. */
  lemma KnightCapturesSymmetric(g: Grid, pos: Square, q: Square, player: int)
    requires OnBoard(pos) && OnBoard(q) && IsSide(player)
    requires IsPieceValue(Cell(g, pos)) && Signum(Cell(g, pos)) == player
    requires IsPieceValue(Cell(g, q)) && Signum(Cell(g, q)) == -player
    ensures q in Knight(g, pos, player).captures <==> pos in Knight(g, q, -player).captures
  {
    KnightTargets(g, pos, player, q);
    KnightTargets(g, q, -player, pos);
  }

  /** King steps are symmetric. */
  lemma KingCapturesSymmetric(g: Grid, pos: Square, q: Square, player: int)
    requires OnBoard(pos) && OnBoard(q) && IsSide(player)
    requires IsPieceValue(Cell(g, pos)) && Signum(Cell(g, pos)) == player
    requires IsPieceValue(Cell(g, q)) && Signum(Cell(g, q)) == -player
    ensures q in King(g, pos, player).captures <==> pos in King(g, q, -player).captures
  {
    KingTargets(g, pos, player, q);
    KingTargets(g, q, -player, pos);
  }

  /** Bishop captures are symmetric: the four diagonals come in opposite pairs. */
  lemma BishopCapturesSymmetric(g: Grid, pos: Square, q: Square, player: int)
    requires OnBoard(pos) && OnBoard(q) && IsSide(player)
    requires IsPieceValue(Cell(g, pos)) && Signum(Cell(g, pos)) == player
    requires IsPieceValue(Cell(g, q)) && Signum(Cell(g, q)) == -player
    ensures q in Bishop(g, pos, player).captures <==> pos in Bishop(g, q, -player).captures
  {
    BishopDirsClosed();
    BishopDirsUnit();
    SlideCapturesSymmetric(g, pos, q, player, BishopDirs());
  }

  /** Rook captures are symmetric: the four orthogonal directions come in opposite pairs. */
  lemma RookCapturesSymmetric(g: Grid, pos: Square, q: Square, player: int)
    requires OnBoard(pos) && OnBoard(q) && IsSide(player)
    requires IsPieceValue(Cell(g, pos)) && Signum(Cell(g, pos)) == player
    requires IsPieceValue(Cell(g, q)) && Signum(Cell(g, q)) == -player
    ensures q in Rook(g, pos, player).captures <==> pos in Rook(g, q, -player).captures
  {
    RookDirsClosed();
    RookDirsUnit();
    SlideCapturesSymmetric(g, pos, q, player, ROOK_DIRS);
  }

  /** Queen captures are symmetric: the block of nine steps is closed under negation. */
  lemma QueenCapturesSymmetric(g: Grid, pos: Square, q: Square, player: int)
    requires OnBoard(pos) && OnBoard(q) && IsSide(player)
    requires IsPieceValue(Cell(g, pos)) && Signum(Cell(g, pos)) == player
    requires IsPieceValue(Cell(g, q)) && Signum(Cell(g, q)) == -player
    ensures q in Queen(g, pos, player).captures <==> pos in Queen(g, q, -player).captures
  {
    BlockClosed();
    BlockUnit();
    SlideCapturesSymmetric(g, pos, q, player, Block());
  }

  /** The reversed-movement principle of the attack test: for two real pieces of opposite
      sides, the generator of kind `kind` run from pos for `player` captures on q iff the same
      generator run from q for the other side captures on pos. */
  lemma GenerateCapturesSymmetric(kind: int, s: State, pos: Square, q: Square, player: int)
    requires PAWN <= kind <= KING && OnBoard(pos) && OnBoard(q) && IsSide(player)
    requires IsPieceValue(Cell(s.b, pos)) && Signum(Cell(s.b, pos)) == player
    requires IsPieceValue(Cell(s.b, q)) && Signum(Cell(s.b, q)) == -player
    ensures q in Generate(kind, s, pos, player).captures <==> pos in Generate(kind, s, q, -player).captures
  {
    if kind == PAWN {
      PawnCapturesSymmetric(s, pos, q, player);
    } else if kind == KNIGHT {
      KnightCapturesSymmetric(s.b, pos, q, player);
    } else if kind == KING {
      KingCapturesSymmetric(s.b, pos, q, player);
    } else if kind == BISHOP {
      BishopCapturesSymmetric(s.b, pos, q, player);
    } else if kind == ROOK {
      RookCapturesSymmetric(s.b, pos, q, player);
    } else {
      QueenCapturesSymmetric(s.b, pos, q, player);
    }
  }
}
