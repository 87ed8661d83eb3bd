/** The attack test `is_hit`: a square is hit when, for some piece kind, the kind's own
    generator run from that square captures a piece of the same kind. The kinds are tried in
    order PAWN..KING, and the test gives up at the first kind whose capture list is empty. */
module Attack {
  import opened ChessBoard
  import opened MoveGen
  import opened MoveGenLemmas

  /** The capture list of kind index i (kind i + 1) generated from pos. */
  function Captures(s: State, pos: Square, player: int, i: int): seq<Square>
    requires OnBoard(pos) && 0 <= i < N_PCS
  {
    Generate(i + 1, s, pos, player).captures
  }

  /** Some square of kind index i's capture list holds a piece of kind i + 1, of either side. */
  predicate KindMatch(s: State, pos: Square, player: int, i: int)
    requires OnBoard(pos) && 0 <= i < N_PCS
  {
    var caps := Captures(s, pos, player, i);
    exists j :: 0 <= j < |caps| && OnBoard(caps[j]) && Abs(Cell(s.b, caps[j])) == i + 1
  }

  /** What is_hit answers once it has reached kind index i. */
  predicate HitFrom(s: State, pos: Square, player: int, i: int)
    requires OnBoard(pos) && 0 <= i <= N_PCS
    decreases N_PCS - i
  {
    if i == N_PCS then false
    else if Captures(s, pos, player, i) == [] then false
    else KindMatch(s, pos, player, i) || HitFrom(s, pos, player, i + 1)
  }

  predicate Hit(s: State, pos: Square, player: int)
    requires OnBoard(pos)
  {
    HitFrom(s, pos, player, 0)
  }

  /** Every square of a capture list is on the board. */
  lemma CapturesOnBoard(s: State, pos: Square, player: int, i: int)
    requires OnBoard(pos) && 0 <= i < N_PCS && IsSide(player)
    ensures forall j :: 0 <= j < |Captures(s, pos, player, i)| ==> OnBoard(Captures(s, pos, player, i)[j])
  {
    forall j | 0 <= j < |Captures(s, pos, player, i)|
      ensures OnBoard(Captures(s, pos, player, i)[j])
    {
      GenerateSound(i + 1, s, pos, player, Captures(s, pos, player, i)[j]);
    }
  }

  /** The inner scan of is_hit: does some listed square hold a piece of kind `kind`? */
  method ScanForKind(B: Board, caps: seq<Square>, kind: int) returns (found: bool)
    requires B.Valid() && forall j :: 0 <= j < |caps| ==> OnBoard(caps[j])
    ensures found <==> exists j :: 0 <= j < |caps| && OnBoard(caps[j]) && Abs(Cell(B.pieces, caps[j])) == kind
  {
    for j := 0 to |caps|
      invariant forall j' :: 0 <= j' < j ==> Abs(Cell(B.pieces, caps[j'])) != kind
    {
      var q := caps[j];
      if Abs(B.b[q.rank, q.file]) == kind {
        assert B.b[q.rank, q.file] == Cell(B.pieces, q);
        return true;
      }
    }
    return false;
  }

  /** is_hit: for each kind, generate from pos and scan the capture list for that kind. */
  method IsHit(B: Board, pos: Square, player: int) returns (hit: bool)
    requires B.Valid() && OnBoard(pos) && IsSide(player)
    ensures hit == Hit(B.Snapshot(), pos, player)
  {
    ghost var s := B.Snapshot();
    for i := 0 to N_PCS
      invariant Hit(s, pos, player) == HitFrom(s, pos, player, i)
    {
      var list := ListMoves(B, i + 1, pos, player);
      assert list.captures == Captures(s, pos, player, i);
      if list.captures == [] {
        return false;
      }
      CapturesOnBoard(s, pos, player, i);
      var found := ScanForKind(B, list.captures, i + 1);
      if found {
        return true;
      }
    }
    return false;
  }

  /** Every kind from i up to k has a non-empty capture list. */
  predicate NonEmptyUpTo(s: State, pos: Square, player: int, i: int, k: int)
    requires OnBoard(pos) && 0 <= i && k < N_PCS
  {
    forall k' :: i <= k' <= k ==> Captures(s, pos, player, k') != []
  }

  /** A match at kind k, with no empty list at or before it, makes is_hit answer yes. */
  lemma {:induction false} HitFromWitness(s: State, pos: Square, player: int, i: int, k: int)
    requires OnBoard(pos) && 0 <= i <= k < N_PCS
    requires KindMatch(s, pos, player, k) && NonEmptyUpTo(s, pos, player, i, k)
    ensures HitFrom(s, pos, player, i)
    decreases k - i
  {
    assert Captures(s, pos, player, i) != [];
    if i < k {
      HitFromWitness(s, pos, player, i + 1, k);
    }
  }

  /** A yes from is_hit comes from such a kind. */
  lemma {:induction false} HitFromHasWitness(s: State, pos: Square, player: int, i: int)
    requires OnBoard(pos) && 0 <= i <= N_PCS
    requires HitFrom(s, pos, player, i)
    ensures exists k :: i <= k < N_PCS && KindMatch(s, pos, player, k) && NonEmptyUpTo(s, pos, player, i, k)
    decreases N_PCS - i
  {
    if KindMatch(s, pos, player, i) {
      assert NonEmptyUpTo(s, pos, player, i, i);
    } else {
      HitFromHasWitness(s, pos, player, i + 1);
      var k :| i + 1 <= k < N_PCS && KindMatch(s, pos, player, k) && NonEmptyUpTo(s, pos, player, i + 1, k);
      assert NonEmptyUpTo(s, pos, player, i, k);
    }
  }

  /** is_hit answers yes iff some kind k has a match while every kind up to k, k included, has
      a non-empty capture list. */
  lemma HitIff(s: State, pos: Square, player: int)
    requires OnBoard(pos)
    ensures Hit(s, pos, player) <==>
      exists k :: 0 <= k < N_PCS && KindMatch(s, pos, player, k) && NonEmptyUpTo(s, pos, player, 0, k)
  {
    if Hit(s, pos, player) {
      HitFromHasWitness(s, pos, player, 0);
    }
    if exists k :: 0 <= k < N_PCS && KindMatch(s, pos, player, k) && NonEmptyUpTo(s, pos, player, 0, k) {
      var k :| 0 <= k < N_PCS && KindMatch(s, pos, player, k) && NonEmptyUpTo(s, pos, player, 0, k);
      HitFromWitness(s, pos, player, 0, k);
    }
  }

  lemma {:induction false} HitFromStops(s: State, pos: Square, player: int, i: int, e: int)
    requires OnBoard(pos) && 0 <= i <= e < N_PCS
    requires Captures(s, pos, player, e) == []
    requires forall k :: i <= k < e ==> !KindMatch(s, pos, player, k)
    ensures !HitFrom(s, pos, player, i)
    decreases e - i
  {
    if i < e {
      HitFromStops(s, pos, player, i + 1, e);
    }
  }

  /** Once no kind before e has a match and kind e's capture list is empty, the answer is no,
      whatever the later kinds would find. */
  lemma HitStopsAtEmpty(s: State, pos: Square, player: int, e: int)
    requires OnBoard(pos) && 0 <= e < N_PCS
    requires Captures(s, pos, player, e) == []
    requires forall k :: 0 <= k < e ==> !KindMatch(s, pos, player, k)
    ensures !Hit(s, pos, player)
  {
    HitFromStops(s, pos, player, 0, e);
  }

  /** What is_hit looks for, the reversed-movement notion: an opponent's piece of kind k
      stands on a square that a piece of kind k standing on pos, for player, would capture. */
  ghost predicate ReverseAttacked(s: State, pos: Square, player: int)
    requires OnBoard(pos)
  {
    exists q :: OnBoard(q) && Signum(Cell(s.b, q)) == -player && PAWN <= Abs(Cell(s.b, q)) <= KING &&
      q in Generate(Abs(Cell(s.b, q)), s, pos, player).captures
  }

  /** The intended notion: some opponent's piece, moving by its own generator from its own
      square, would capture on pos. */
  ghost predicate Attacked(s: State, pos: Square, player: int)
    requires OnBoard(pos)
  {
    exists q :: OnBoard(q) && Signum(Cell(s.b, q)) == -player && PAWN <= Abs(Cell(s.b, q)) <= KING &&
      pos in Generate(Abs(Cell(s.b, q)), s, q, -player).captures
  }

  /** When pos holds a piece of player, the two notions agree: every kind's captures are
      symmetric between two pieces of opposite sides. */
  lemma AttackedIffReverse(s: State, pos: Square, player: int)
    requires OnBoard(pos) && IsSide(player)
    requires IsPieceValue(Cell(s.b, pos)) && Signum(Cell(s.b, pos)) == player
    ensures Attacked(s, pos, player) <==> ReverseAttacked(s, pos, player)
  {
    if ReverseAttacked(s, pos, player) {
      var q :| OnBoard(q) && Signum(Cell(s.b, q)) == -player && PAWN <= Abs(Cell(s.b, q)) <= KING &&
        q in Generate(Abs(Cell(s.b, q)), s, pos, player).captures;
      GenerateCapturesSymmetric(Abs(Cell(s.b, q)), s, pos, q, player);
    }
    if Attacked(s, pos, player) {
      var q :| OnBoard(q) && Signum(Cell(s.b, q)) == -player && PAWN <= Abs(Cell(s.b, q)) <= KING &&
        pos in Generate(Abs(Cell(s.b, q)), s, q, -player).captures;
      GenerateCapturesSymmetric(Abs(Cell(s.b, q)), s, pos, q, player);
    }
  }

  /** Every hit reported names an opponent's piece of some kind k on a square that kind k's
      generator lists as a capture from pos; when pos holds a piece of player, that opponent's
      piece attacks pos. */
  lemma HitSound(s: State, pos: Square, player: int)
    requires OnBoard(pos) && IsSide(player)
    ensures Hit(s, pos, player) ==> ReverseAttacked(s, pos, player)
    ensures IsPieceValue(Cell(s.b, pos)) && Signum(Cell(s.b, pos)) == player && Hit(s, pos, player) ==>
      Attacked(s, pos, player)
  {
    HitIff(s, pos, player);
    if Hit(s, pos, player) {
      var k :| 0 <= k < N_PCS && KindMatch(s, pos, player, k) && NonEmptyUpTo(s, pos, player, 0, k);
      var caps := Captures(s, pos, player, k);
      var j :| 0 <= j < |caps| && OnBoard(caps[j]) && Abs(Cell(s.b, caps[j])) == k + 1;
      var q := caps[j];
      GenerateSound(k + 1, s, pos, player, q);
      assert Abs(Cell(s.b, q)) == k + 1;
      assert ReverseAttacked(s, pos, player);
      if IsPieceValue(Cell(s.b, pos)) && Signum(Cell(s.b, pos)) == player {
        AttackedIffReverse(s, pos, player);
      }
    }
  }

  /*-A square that is attacked but not hit--------------------------------*/

  function EmptyGrid(): Grid
  {
    seq(8, _ => seq(8, _ => 0))
  }

  /** A king of side +1 at (0, 4) with an enemy rook right in front of it at (1, 4). */
  function RookFacingKing(): State
  {
    State(Set(Set(EmptyGrid(), 0, 4, KING), 1, 4, -ROOK), EmptyGrid())
  }

  /** From (0, 4) the pawn pattern of side +1 captures nothing on this board. */
  lemma PawnSeesNothing()
    ensures Captures(RookFacingKing(), Square(0, 4), 1, 0) == []
  {
    var s := RookFacingKing();
    assert Cell(s.b, Square(1, 5)) == 0 && Cell(s.b, Square(1, 3)) == 0;
  }

  /** From (0, 4) the rook pattern of side +1 captures the rook at (1, 4). */
  lemma RookSeesRook()
    ensures Square(1, 4) in Generate(ROOK, RookFacingKing(), Square(0, 4), 1).captures
  {
    var s := RookFacingKing();
    var pos, q := Square(0, 4), Square(1, 4);
    assert Cell(s.b, q) == -ROOK;
    var up := Delta(1, 0);
    assert ROOK_DIRS[2] == up;
    var mid := Slide(s.b, pos, 1, ROOK_DIRS, 3);
    assert mid == Ray(s.b, pos, up, 1, 1, Slide(s.b, pos, 1, ROOK_DIRS, 2));
    assert Step(pos, up, 1) == q;
    assert q in mid.captures;
    RayMember(s.b, pos, ROOK_DIRS[3], 1, 1, mid, q);
  }

  /** The king is attacked by the rook, but is_hit says no: the pawn pattern from (0, 4)
      captures nothing, so the test stops before it looks at rooks. */
  lemma RookAttackMissed()
    ensures Attacked(RookFacingKing(), Square(0, 4), 1)
    ensures ReverseAttacked(RookFacingKing(), Square(0, 4), 1)
    ensures !Hit(RookFacingKing(), Square(0, 4), 1)
  {
    var s := RookFacingKing();
    PawnSeesNothing();
    HitStopsAtEmpty(s, Square(0, 4), 1, 0);
    RookSeesRook();
    assert Cell(s.b, Square(1, 4)) == -ROOK;
    assert ReverseAttacked(s, Square(0, 4), 1);
    assert Cell(s.b, Square(0, 4)) == KING;
    AttackedIffReverse(s, Square(0, 4), 1);
  }
}
