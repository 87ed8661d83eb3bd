/** Move application (`make_move`), legality (`is_legal`) and the mate/stalemate query
    (`can_move`). */
module Rules {
  import opened ChessBoard
  import opened MoveGen
  import opened MoveGenLemmas
  import opened Attack

  /** C's conversion of a floating value to int: truncation toward zero. */
  function Trunc(x: real): (r: int)
    ensures x >= 0.0 ==> r as real <= x < r as real + 1.0
    ensures x < 0.0 ==> r as real - 1.0 < x <= r as real
  {
    if x >= 0.0 then x.Floor else -((-x).Floor)
  }

  /** (int)(4 + 3.5 * v): the promotion rank for a side, the rook's corner file for a castling
      direction. */
  function FarFile(v: int): int
  {
    Trunc(4.0 + 3.5 * (v as real))
  }

  lemma FarFileValues()
    ensures FarFile(1) == 7 && FarFile(-1) == 0
  {
  }

  /*-make_move------------------------------------------------------------*/

  /** The castling special case: a king moving two files along its rank. */
  predicate CastlingStep(m: Move)
  {
    m.to.rank == m.from.rank && Abs(m.to.file - m.from.file) == 2
  }

  /** The double-step special case of a pawn. */
  predicate DoubleStep(m: Move, player: int)
  {
    m.to.file == m.from.file && m.to.rank - m.from.rank == 2 * player
  }

  /** The piece map after make_move's special case, selected by the value at
      (to.rank, from.file). */
  function SpecialCase(s: State, m: Move, player: int): (g: Grid)
    requires OnBoard(m.from) && OnBoard(m.to)
  {
    var fr, ff := m.from.rank, m.from.file;
    var dx := m.to.file - ff;
    var selector := Cell(s.b, Square(m.to.rank, ff));
    if Abs(selector) == KING then
      if CastlingStep(m) then
        Set(Set(s.b, fr, FarFile(Signum(dx)), 0), fr, ff + Signum(dx), ROOK * player)
      else s.b
    else if Abs(selector) == PAWN then
      if DoubleStep(m, player) then Set(s.b, fr + player, ff, player * EP_FLAG)
      else if m.to.rank == FarFile(player) then Set(s.b, fr, ff, QUEEN * player)
      else s.b
    else s.b
  }

  /** The state after make_move: special case, then the piece moves and both touch squares
      are cleared. When the squares differ, the target receives the moving value, or
      QUEEN * player when the promotion branch fires, and the origin is emptied; both touch
      squares become 0 (the rest is in ApplyFrame). */
  function Apply(s: State, m: Move, player: int): (r: State)
    requires OnBoard(m.from) && OnBoard(m.to)
    ensures m.from != m.to ==>
      Cell(r.b, m.to) == (if Promotes(s, m, player) then QUEEN * player else Cell(s.b, m.from))
    ensures Cell(r.b, m.from) == 0 && Cell(r.t, m.from) == 0 && Cell(r.t, m.to) == 0
  {
    var g := SpecialCase(s, m, player);
    var b := Set(Set(g, m.to.rank, m.to.file, Cell(g, m.from)), m.from.rank, m.from.file, 0);
    var t := Set(Set(s.t, m.to.rank, m.to.file, 0), m.from.rank, m.from.file, 0);
    State(b, t)
  }

  /** The promotion branch fires: a pawn of either side at (to.rank, from.file), no double
      step, and the target on the player's far rank. */
  predicate Promotes(s: State, m: Move, player: int)
    requires OnBoard(m.from) && OnBoard(m.to)
  {
    Abs(Cell(s.b, Square(m.to.rank, m.from.file))) == PAWN && !DoubleStep(m, player) &&
    m.to.rank == FarFile(player)
  }

  /** The marker branch fires: a pawn of either side at (to.rank, from.file) and a double step. */
  predicate PlacesMarker(s: State, m: Move, player: int)
    requires OnBoard(m.from) && OnBoard(m.to)
  {
    Abs(Cell(s.b, Square(m.to.rank, m.from.file))) == PAWN && DoubleStep(m, player)
  }

  /** The castling branch fires: a king of either side at (to.rank, from.file), which is the
      origin, and a two-file step along the rank. */
  predicate MovesRook(s: State, m: Move)
    requires OnBoard(m.from) && OnBoard(m.to)
  {
    Abs(Cell(s.b, Square(m.to.rank, m.from.file))) == KING && CastlingStep(m)
  }

  /** A board write of the model, mirrored on the ghost view. */
  method Write(B: Board, rank: int, file: int, v: int)
    requires B.Valid() && 0 <= rank < 8 && 0 <= file < 8
    modifies B, B.b
    ensures B.Valid() && B.b == old(B.b) && B.t == old(B.t)
    ensures B.pieces == Set(old(B.pieces), rank, file, v) && B.touch == old(B.touch)
  {
    B.b[rank, file] := v;
    B.pieces := Set(B.pieces, rank, file, v);
  }

  method Touch(B: Board, rank: int, file: int, v: int)
    requires B.Valid() && 0 <= rank < 8 && 0 <= file < 8
    modifies B, B.t
    ensures B.Valid() && B.b == old(B.b) && B.t == old(B.t)
    ensures B.touch == Set(old(B.touch), rank, file, v) && B.pieces == old(B.pieces)
  {
    B.t[rank, file] := v;
    B.touch := Set(B.touch, rank, file, v);
  }

  /** make_move: updates the board in place. */
  method MakeMove(B: Board, m: Move, player: int)
    requires B.Valid() && OnBoard(m.from) && OnBoard(m.to)
    modifies B, B.b, B.t
    ensures B.Valid() && B.b == old(B.b) && B.t == old(B.t)
    ensures B.Snapshot() == Apply(old(B.Snapshot()), m, player)
  {
    ghost var s := B.Snapshot();
    var y0, x0, y1, x1 := m.from.rank, m.from.file, m.to.rank, m.to.file;
    var dy, dx := y1 - y0, x1 - x0;
    var piece := B.b[y1, x0];
    assert piece == Cell(s.b, Square(y1, x0));
    if Abs(piece) == KING {
      if dy == 0 && Abs(dx) == 2 {
        Write(B, y0, FarFile(Signum(dx)), 0);
        Write(B, y0, x0 + Signum(dx), ROOK * player);
      }
    } else if Abs(piece) == PAWN {
      if dx == 0 && dy == 2 * player {
        Write(B, y0 + player, x0, player * EP_FLAG);
      } else if y1 == FarFile(player) {
        Write(B, y0, x0, QUEEN * player);
      }
    }
    assert B.pieces == SpecialCase(s, m, player);
    Write(B, y1, x1, B.b[y0, x0]);
    Write(B, y0, x0, 0);
    Touch(B, y1, x1, 0);
    Touch(B, y0, x0, 0);
  }

  /** Nothing else changes, except the marker square in front of the origin and the two rook
      squares of the castling branch, each only when its branch fires; the touch map changes
      only at the two squares of the move. */
  lemma ApplyFrame(s: State, m: Move, player: int, q: Square)
    requires OnBoard(m.from) && OnBoard(m.to) && OnBoard(q) && q != m.from && q != m.to
    ensures var r := Apply(s, m, player);
      var marker := Square(m.from.rank + player, m.from.file);
      var dir := Signum(m.to.file - m.from.file);
      Cell(r.t, q) == Cell(s.t, q) &&
      (Cell(r.b, q) != Cell(s.b, q) ==>
        (PlacesMarker(s, m, player) && q == marker && Cell(r.b, q) == player * EP_FLAG) ||
        (MovesRook(s, m) && q == Square(m.from.rank, FarFile(dir)) && Cell(r.b, q) == 0) ||
        (MovesRook(s, m) && q == Square(m.from.rank, m.from.file + dir) && Cell(r.b, q) == ROOK * player))
  {
  }

  /** The special cases do write: a double step leaves the player's marker on the square it
      passes over, and a castling step puts the player's rook beside the origin, towards the
      target, and empties the corner on that side unless the king itself lands there. */
  lemma ApplySpecialWrites(s: State, m: Move, player: int)
    requires OnBoard(m.from) && OnBoard(m.to) && IsSide(player)
    ensures var r := Apply(s, m, player);
      PlacesMarker(s, m, player) ==>
        Cell(r.b, Square(m.from.rank + player, m.from.file)) == player * EP_FLAG
    ensures var r := Apply(s, m, player);
      var dir := Signum(m.to.file - m.from.file);
      MovesRook(s, m) ==>
        Cell(r.b, Square(m.from.rank, m.from.file + dir)) == ROOK * player &&
        (Square(m.from.rank, FarFile(dir)) != m.to ==> Cell(r.b, Square(m.from.rank, FarFile(dir))) == 0)
  {
  }

  /** A pawn's straight advance onto an empty square moves the pawn and nothing else: the
      branch is chosen by the empty target, so no marker is placed and no queen appears. */
  lemma PawnAdvanceIsPlain(s: State, m: Move, player: int)
    requires OnBoard(m.from) && OnBoard(m.to) && m.from != m.to
    requires m.to.file == m.from.file && Cell(s.b, m.to) == 0
    ensures Apply(s, m, player).b == Set(Set(s.b, m.to.rank, m.to.file, Cell(s.b, m.from)), m.from.rank, m.from.file, 0)
    ensures !PlacesMarker(s, m, player) && !Promotes(s, m, player)
  {
  }

  /** Any piece moving diagonally onto the player's far rank, past a pawn of either side at
      (to.rank, from.file), turns into a queen: a king moving there disappears. */
  lemma DiagonalOntoFarRankPromotes(s: State, m: Move, player: int)
    requires OnBoard(m.from) && OnBoard(m.to) && IsSide(player)
    requires m.to.file != m.from.file && m.to.rank == FarFile(player)
    requires Abs(Cell(s.b, Square(m.to.rank, m.from.file))) == PAWN
    ensures Cell(Apply(s, m, player).b, m.to) == QUEEN * player
  {
  }

  /*-is_legal-------------------------------------------------------------*/

  /** The guard of is_legal's castling branch, with the rank compared as a double. */
  predicate CastlingGuard(s: State, m: Move, player: int)
    requires OnBoard(m.from) && OnBoard(m.to)
  {
    var dy, dx := m.to.rank - m.from.rank, m.to.file - m.from.file;
    dx == 2 && dy == 0 && m.from.rank as real == 4.0 + 3.5 * (player as real) && m.from.file == 3 &&
    !(Cell(s.t, m.from) != 0 || Cell(s.t, Square(m.from.rank, if dx > 0 then 7 else 0)) != 0)
  }

  /** An integer rank never equals 7.5 or 0.5, so the castling branch is dead. */
  lemma CastlingNever(s: State, m: Move, player: int)
    requires OnBoard(m.from) && OnBoard(m.to) && IsSide(player)
    ensures !CastlingGuard(s, m, player)
  {
    var r := m.from.rank;
    if player == 1 {
      assert r as real <= 7.0;
    } else if r > 0 {
      assert r as real >= 1.0;
    }
  }

  /** The king of `player` is found on h and not hit there; a board without that king is
      treated as unsafe. */
  predicate KingSafe(h: State, player: int)
  {
    match FindFirst(h.b, KING * player)
    case None => false
    case Some(k) => OnBoard(k) && !Hit(h, k, player)
  }

  /** Moving from `from` to `to` leaves the player's king safe. */
  predicate Escapes(s: State, from: Square, to: Square, player: int)
    requires OnBoard(from) && OnBoard(to)
  {
    KingSafe(Apply(s, Move(from, to), player), player)
  }

  /** The value of is_legal. */
  predicate Legal(s: State, m: Move, player: int)
    requires OnBoard(m.from) && OnBoard(m.to) && IsSide(player)
    requires Signum(Cell(s.b, m.from)) == player ==> Abs(Cell(s.b, m.from)) <= N_PCS
  {
    var p0, p1 := Cell(s.b, m.from), Cell(s.b, m.to);
    if Signum(p0) != player then false
    else if Abs(p0) == KING && CastlingGuard(s, m, player) then false
    else
      var list := Generate(Abs(p0), s, m.from, player);
      (m.to in if p1 != 0 then list.captures else list.quiet) &&
      Escapes(s, m.from, m.to, player)
  }

  lemma LegalOnlyOwnPiece(s: State, m: Move, player: int)
    requires OnBoard(m.from) && OnBoard(m.to) && IsSide(player)
    requires Signum(Cell(s.b, m.from)) == player ==> Abs(Cell(s.b, m.from)) <= N_PCS
    ensures Legal(s, m, player) ==> Signum(Cell(s.b, m.from)) == player
  {
  }

  /** is_legal accepts iff the origin holds one of the player's pieces, the target is in the
      capture list when it holds any nonzero value (a marker too) and in the quiet list when it
      is 0, and the player's king is not hit after the move. */
  lemma LegalIff(s: State, m: Move, player: int)
    requires OnBoard(m.from) && OnBoard(m.to) && IsSide(player)
    requires Signum(Cell(s.b, m.from)) == player ==> Abs(Cell(s.b, m.from)) <= N_PCS
    ensures Legal(s, m, player) <==>
      var p0, p1 := Cell(s.b, m.from), Cell(s.b, m.to);
      Signum(p0) == player &&
      (p1 != 0 ==> m.to in Generate(Abs(p0), s, m.from, player).captures) &&
      (p1 == 0 ==> m.to in Generate(Abs(p0), s, m.from, player).quiet) &&
      Escapes(s, m.from, m.to, player)
  {
    CastlingNever(s, m, player);
  }

  /** A knight jumping onto the opponent's en-passant marker is rejected: the generator lists
      the marker square as quiet, but is_legal looks in the capture list since the target is
      nonzero. */
  lemma KnightOntoMarkerIllegal(s: State, m: Move, player: int)
    requires OnBoard(m.from) && OnBoard(m.to) && IsSide(player)
    requires Cell(s.b, m.from) == KNIGHT * player && Cell(s.b, m.to) == -player * EP_FLAG
    requires IsKnightJump(m.to.rank - m.from.rank, m.to.file - m.from.file)
    ensures m.to in Knight(s.b, m.from, player).quiet
    ensures !Legal(s, m, player)
  {
    KnightTargets(s.b, m.from, player, m.to);
    LegalIff(s, m, player);
  }

  /** A king never castles: the castling branch is dead, and the king's generator lists only
      the eight neighbouring squares, so a two-file step is in neither list. */
  lemma CastlingRejected(s: State, m: Move, player: int)
    requires OnBoard(m.from) && OnBoard(m.to) && IsSide(player)
    requires Cell(s.b, m.from) == KING * player && CastlingStep(m)
    ensures !Legal(s, m, player)
  {
    LegalIff(s, m, player);
    KingTargets(s.b, m.from, player, m.to);
  }

  /** A king's step onto an empty neighbouring square is accepted iff the king is then not hit. */
  lemma KingStepLegal(s: State, m: Move, player: int)
    requires OnBoard(m.from) && OnBoard(m.to) && IsSide(player)
    requires Cell(s.b, m.from) == KING * player && Cell(s.b, m.to) == 0
    requires IsKingStep(m.to.rank - m.from.rank, m.to.file - m.from.file)
    ensures Legal(s, m, player) <==> Escapes(s, m.from, m.to, player)
  {
    LegalIff(s, m, player);
    KingTargets(s.b, m.from, player, m.to);
  }

  /*-A legal move into an attack-----------------------------------------*/

  /** A king of side +1 at (0, 3) with an enemy rook at (1, 4). */
  function KingBesideRook(): State
  {
    State(Set(Set(EmptyGrid(), 0, 3, KING), 1, 4, -ROOK), EmptyGrid())
  }

  /** On the board with the king at (0, 4) facing the rook, find locates that king. */
  lemma FindFacingKing()
    ensures FindFirst(RookFacingKing().b, KING) == Some(Square(0, 4))
  {
    var g := RookFacingKing().b;
    FindFirstCorrect(g, KING);
    assert Cell(g, Square(0, 4)) == KING;
    assert forall q :: OnBoard(q) && q != Square(0, 4) ==> Cell(g, q) != KING;
  }

  /** The king's step from (0, 3) to (0, 4) gives the board with the king facing the rook. */
  lemma KingStepFacesRook()
    ensures Apply(KingBesideRook(), Move(Square(0, 3), Square(0, 4)), 1) == RookFacingKing()
  {
    var h := Apply(KingBesideRook(), Move(Square(0, 3), Square(0, 4)), 1);
    GridExt(h.b, RookFacingKing().b);
    GridExt(h.t, RookFacingKing().t);
  }

  /** is_legal's king-safety test passes after that step: is_hit misses the rook. */
  lemma KingStepEscapes()
    ensures Escapes(KingBesideRook(), Square(0, 3), Square(0, 4), 1)
  {
    KingStepFacesRook();
    RookAttackMissed();
    FindFacingKing();
  }

  /** is_legal accepts the king's step from (0, 3) to (0, 4), right in front of the enemy rook:
      after the move the king is attacked, but is_hit misses the rook. */
  lemma LegalMoveIntoAttack()
    ensures Legal(KingBesideRook(), Move(Square(0, 3), Square(0, 4)), 1)
    ensures Attacked(Apply(KingBesideRook(), Move(Square(0, 3), Square(0, 4)), 1), Square(0, 4), 1)
  {
    var s := KingBesideRook();
    KingStepFacesRook();
    RookAttackMissed();
    KingStepEscapes();
    assert Cell(s.b, Square(0, 3)) == KING && Cell(s.b, Square(0, 4)) == 0;
    KingStepLegal(s, Move(Square(0, 3), Square(0, 4)), 1);
  }

  /** is_legal. `m` comes from read_move, so both squares are on the board. */
  method IsLegal(B: Board, m: Move, player: int) returns (ok: bool)
    requires B.Valid() && OnBoard(m.from) && OnBoard(m.to) && IsSide(player)
    requires Signum(Cell(B.pieces, m.from)) == player ==> Abs(Cell(B.pieces, m.from)) <= N_PCS
    ensures ok == Legal(B.Snapshot(), m, player)
  {
    ghost var s := B.Snapshot();
    var p0, p1 := B.b[m.from.rank, m.from.file], B.b[m.to.rank, m.to.file];
    assert p0 == Cell(s.b, m.from) && p1 == Cell(s.b, m.to);
    if Signum(p0) != player {
      return false;
    }
    CastlingNever(s, m, player);
    if Abs(p0) == KING && CastlingGuard(s, m, player) {
      assert false;
    }
    var list := ListMoves(B, Abs(p0), m.from, player);
    var l := if p1 != 0 then list.captures else list.quiet;
    var found := Contains(l, m.to);
    if !found {
      return false;
    }
    ok := TryMove(B, m.from, m.to, player);
  }

  /** The scan of is_legal over the selected list. */
  method Contains(l: seq<Square>, sq: Square) returns (found: bool)
    ensures found <==> sq in l
  {
    for i := 0 to |l|
      invariant sq !in l[..i]
    {
      if l[i] == sq {
        return true;
      }
    }
    assert l[..|l|] == l;
    return false;
  }

  /** The king-safety tail shared by is_legal and can_move: find the king, ask is_hit. */
  method IsKingSafe(H: Board, player: int) returns (safe: bool)
    requires H.Valid() && IsSide(player)
    ensures safe == KingSafe(H.Snapshot(), player)
  {
    var pos := Find(H, KING, player);
    FindFirstCorrect(H.pieces, KING * player);
    if pos.None? {
      return false;
    }
    var hit := IsHit(H, pos.value, player);
    safe := !hit;
  }

  /*-can_move-------------------------------------------------------------*/

  /** Some listed destination is an escape. */
  predicate SomeEscape(s: State, from: Square, dests: seq<Square>, player: int)
    requires OnBoard(from)
  {
    EscapeAfter(s, from, dests, player, 0)
  }

  /** Some destination at index l or later is an escape: what can_move's scan of a list has
      still to find. */
  predicate EscapeAfter(s: State, from: Square, dests: seq<Square>, player: int, l: nat)
    requires OnBoard(from)
    decreases |dests| - l
  {
    l < |dests| && ((OnBoard(dests[l]) && Escapes(s, from, dests[l], player)) || EscapeAfter(s, from, dests, player, l + 1))
  }

  /** An escape at index k is found by a scan that starts at or before k. */
  lemma {:induction false} EscapeAfterWitness(s: State, from: Square, dests: seq<Square>, player: int, l: nat, k: nat)
    requires OnBoard(from) && l <= k < |dests| && OnBoard(dests[k]) && Escapes(s, from, dests[k], player)
    ensures EscapeAfter(s, from, dests, player, l)
    decreases k - l
  {
    if l < k {
      EscapeAfterWitness(s, from, dests, player, l + 1, k);
    }
  }

  /** A scan finds nothing in a list without escapes. */
  lemma {:induction false} EscapeAfterNone(s: State, from: Square, dests: seq<Square>, player: int, l: nat)
    requires OnBoard(from)
    requires forall k :: l <= k < |dests| && OnBoard(dests[k]) ==> !Escapes(s, from, dests[k], player)
    ensures !EscapeAfter(s, from, dests, player, l)
    decreases |dests| - l
  {
    if l < |dests| {
      EscapeAfterNone(s, from, dests, player, l + 1);
    }
  }

  /** A square where one of the player's pieces has a generated move that is an escape. */
  predicate MovableFrom(s: State, from: Square, player: int)
    requires OnBoard(from) && IsSide(player)
    requires Signum(Cell(s.b, from)) == player ==> Abs(Cell(s.b, from)) <= N_PCS
  {
    Signum(Cell(s.b, from)) == player &&
    var list := Generate(Abs(Cell(s.b, from)), s, from, player);
    (SomeEscape(s, from, list.quiet, player) || SomeEscape(s, from, list.captures, player))
  }

  /** Every own-signed value is a piece kind: the player has no en-passant marker on the board. */
  predicate OwnValuesArePieces(g: Grid, player: int)
  {
    forall r, f :: 0 <= r < 8 && 0 <= f < 8 && Signum(g[r][f]) == player ==> Abs(g[r][f]) <= N_PCS
  }

  /** The value of can_move. */
  ghost predicate CanMoveSpec(s: State, player: int)
    requires IsSide(player) && OwnValuesArePieces(s.b, player)
  {
    exists from {:trigger MovableFrom(s, from, player)} :: OnBoard(from) && MovableFrom(s, from, player)
  }

  /** A legal move proves that the player can move. */
  lemma LegalImpliesCanMove(s: State, m: Move, player: int)
    requires OnBoard(m.from) && OnBoard(m.to) && IsSide(player) && OwnValuesArePieces(s.b, player)
    requires Legal(s, m, player)
    ensures CanMoveSpec(s, player)
  {
    LegalIff(s, m, player);
    var list := Generate(Abs(Cell(s.b, m.from)), s, m.from, player);
    var dests := if Cell(s.b, m.to) != 0 then list.captures else list.quiet;
    var l :| 0 <= l < |dests| && dests[l] == m.to;
    EscapeAfterWitness(s, m.from, dests, player, 0, l);
    assert SomeEscape(s, m.from, dests, player);
    assert MovableFrom(s, m.from, player);
  }

  /** The converse fails: a knight that can jump onto the opponent's en-passant marker without
      leaving its king hit makes can_move say yes, yet is_legal rejects that very move. */
  lemma QuietOntoMarkerCountedButIllegal(s: State, m: Move, player: int)
    requires OnBoard(m.from) && OnBoard(m.to) && IsSide(player) && OwnValuesArePieces(s.b, player)
    requires Cell(s.b, m.from) == KNIGHT * player && Cell(s.b, m.to) == -player * EP_FLAG
    requires IsKnightJump(m.to.rank - m.from.rank, m.to.file - m.from.file)
    requires Escapes(s, m.from, m.to, player)
    ensures MovableFrom(s, m.from, player) && CanMoveSpec(s, player)
    ensures !Legal(s, m, player)
  {
    KnightOntoMarkerIllegal(s, m, player);
    var quiet := Knight(s.b, m.from, player).quiet;
    var l :| 0 <= l < |quiet| && quiet[l] == m.to;
    EscapeAfterWitness(s, m.from, quiet, player, 0, l);
    assert MovableFrom(s, m.from, player);
  }

  /** No square of the board holds a marker of `side`. */
  predicate NoMarkerOf(g: Grid, side: int)
  {
    forall r, f :: 0 <= r < 8 && 0 <= f < 8 ==> g[r][f] != side * EP_FLAG
  }

  /** An escape that a scan would find, by its index. */
  lemma EscapeIndex(s: State, from: Square, dests: seq<Square>, player: int) returns (k: nat)
    requires OnBoard(from) && SomeEscape(s, from, dests, player)
    ensures k < |dests| && OnBoard(dests[k]) && Escapes(s, from, dests[k], player)
  {
    if forall k :: 0 <= k < |dests| && OnBoard(dests[k]) ==> !Escapes(s, from, dests[k], player) {
      EscapeAfterNone(s, from, dests, player, 0);
    }
    k :| k < |dests| && OnBoard(dests[k]) && Escapes(s, from, dests[k], player);
  }

  /** While the opponent has no en-passant marker on the board, the converse holds: a yes
      from can_move names a move that is_legal accepts. */
  lemma CanMoveImpliesLegal(s: State, player: int)
    requires IsSide(player) && OwnValuesArePieces(s.b, player) && NoMarkerOf(s.b, -player)
    requires CanMoveSpec(s, player)
    ensures exists m: Move :: OnBoard(m.from) && OnBoard(m.to) && Legal(s, m, player)
  {
    var from :| OnBoard(from) && MovableFrom(s, from, player);
    var list := Generate(Abs(Cell(s.b, from)), s, from, player);
    var dests := if SomeEscape(s, from, list.quiet, player) then list.quiet else list.captures;
    var k := EscapeIndex(s, from, dests, player);
    var m := Move(from, dests[k]);
    GenerateSound(Abs(Cell(s.b, from)), s, from, player, m.to);
    if dests == list.quiet {
      assert Cell(s.b, m.to) != -player * EP_FLAG;
      assert Cell(s.b, m.to) == 0;
    }
    LegalIff(s, m, player);
    assert Legal(s, m, player);
  }

  /** Try every destination of one list from `from`. */
  method TryDestinations(B: Board, from: Square, dests: seq<Square>, player: int) returns (found: bool)
    requires B.Valid() && OnBoard(from) && IsSide(player)
    requires forall l :: 0 <= l < |dests| ==> OnBoard(dests[l])
    ensures found == SomeEscape(B.Snapshot(), from, dests, player)
  {
    ghost var s := B.Snapshot();
    for l := 0 to |dests|
      invariant SomeEscape(s, from, dests, player) == EscapeAfter(s, from, dests, player, l)
    {
      var safe := TryMove(B, from, dests[l], player);
      if safe {
        return true;
      }
    }
    return false;
  }

  /** make_move on a deep copy, then the king-safety test: the argument board is untouched. */
  method TryMove(B: Board, from: Square, to: Square, player: int) returns (safe: bool)
    requires B.Valid() && OnBoard(from) && OnBoard(to) && IsSide(player)
    ensures safe == Escapes(B.Snapshot(), from, to, player)
  {
    var H := CopyBoard(B);
    MakeMove(H, Move(from, to), player);
    safe := IsKingSafe(H, player);
  }

  /** The moves of the piece on `from`, tried in can_move's order: quiet list, then captures. */
  method PieceCanMove(B: Board, from: Square, player: int) returns (found: bool)
    requires B.Valid() && OnBoard(from) && IsSide(player) && OwnValuesArePieces(B.pieces, player)
    ensures found == MovableFrom(B.Snapshot(), from, player)
  {
    ghost var s := B.Snapshot();
    var piece := B.b[from.rank, from.file];
    assert piece == Cell(s.b, from);
    if Signum(piece) != player {
      return false;
    }
    var list := ListMoves(B, Abs(piece), from, player);
    forall l | 0 <= l < |list.quiet|
      ensures OnBoard(list.quiet[l])
    {
      GenerateSound(Abs(piece), s, from, player, list.quiet[l]);
    }
    forall l | 0 <= l < |list.captures|
      ensures OnBoard(list.captures[l])
    {
      GenerateSound(Abs(piece), s, from, player, list.captures[l]);
    }
    found := TryDestinations(B, from, list.quiet, player);
    if !found {
      found := TryDestinations(B, from, list.captures, player);
    }
  }

  /** MovableFrom, closed under its preconditions. */
  predicate Movable(s: State, player: int, q: Square)
  {
    OnBoard(q) && IsSide(player) && OwnValuesArePieces(s.b, player) && MovableFrom(s, q, player)
  }

  /** Some square at or after (rank, file) in row-major order is Movable: the part of the
      board can_move has still to scan. */
  predicate MovableAfter(s: State, player: int, rank: int, file: int)
    requires 0 <= rank <= 8 && 0 <= file <= 8
    decreases 8 - rank, 8 - file
  {
    if rank == 8 then false
    else if file == 8 then MovableAfter(s, player, rank + 1, 0)
    else Movable(s, player, Square(rank, file)) || MovableAfter(s, player, rank, file + 1)
  }

  lemma {:induction false} MovableAfterIff(s: State, player: int, rank: int, file: int)
    requires 0 <= rank <= 8 && 0 <= file <= 8
    ensures MovableAfter(s, player, rank, file) <==>
      exists q {:trigger Movable(s, player, q)} :: !Before(q, Square(rank, file)) && Movable(s, player, q)
    decreases 8 - rank, 8 - file, 1
  {
    if rank == 8 {
    } else if file == 8 {
      MovableAfterIff(s, player, rank + 1, 0);
      if exists q {:trigger Movable(s, player, q)} :: !Before(q, Square(rank, file)) && Movable(s, player, q) {
        var q :| !Before(q, Square(rank, file)) && Movable(s, player, q);
        assert !Before(q, Square(rank + 1, 0));
      }
    } else {
      MovableAfterStep(s, player, rank, file);
    }
  }

  /** One square of the scan: (rank, file) itself, or a later one. */
  lemma {:induction false} MovableAfterStep(s: State, player: int, rank: int, file: int)
    requires 0 <= rank < 8 && 0 <= file < 8
    ensures MovableAfter(s, player, rank, file) <==>
      exists q {:trigger Movable(s, player, q)} :: !Before(q, Square(rank, file)) && Movable(s, player, q)
    decreases 8 - rank, 8 - file, 0
  {
    var here := Square(rank, file);
    MovableAfterIff(s, player, rank, file + 1);
    if MovableAfter(s, player, rank, file) {
      if Movable(s, player, here) {
        assert !Before(here, here);
      } else {
        var q :| !Before(q, Square(rank, file + 1)) && Movable(s, player, q);
        assert !Before(q, here);
      }
    }
    if exists q {:trigger Movable(s, player, q)} :: !Before(q, here) && Movable(s, player, q) {
      var q :| !Before(q, here) && Movable(s, player, q);
      if q != here {
        assert !Before(q, Square(rank, file + 1));
        assert MovableAfter(s, player, rank, file + 1);
      }
    }
  }

  lemma CanMoveByScan(s: State, player: int)
    requires IsSide(player) && OwnValuesArePieces(s.b, player)
    ensures CanMoveSpec(s, player) == MovableAfter(s, player, 0, 0)
  {
    MovableAfterIff(s, player, 0, 0);
    if CanMoveSpec(s, player) {
      var q :| OnBoard(q) && MovableFrom(s, q, player);
      assert Movable(s, player, q) && !Before(q, Square(0, 0));
    }
  }

  /** can_move: scan the board row by row for a piece of the player with an escaping move. */
  method CanMove(B: Board, player: int) returns (ok: bool)
    requires B.Valid() && IsSide(player) && OwnValuesArePieces(B.pieces, player)
    ensures ok == CanMoveSpec(B.Snapshot(), player)
  {
    ghost var s := B.Snapshot();
    CanMoveByScan(s, player);
    for i := 0 to 8
      invariant MovableAfter(s, player, 0, 0) == MovableAfter(s, player, i, 0)
    {
      for j := 0 to 8
        invariant MovableAfter(s, player, 0, 0) == MovableAfter(s, player, i, j)
      {
        var found := PieceCanMove(B, Square(i, j), player);
        assert found == Movable(s, player, Square(i, j));
        if found {
          return true;
        }
      }
    }
    return false;
  }
}
