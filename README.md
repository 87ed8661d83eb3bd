# A verified model of the chess.h rules engine

This project models the rules engine in `chess.h`, a small chess program in C, and proves
properties of that model.

The board is two 8x8 integer maps:
- The piece map holds `kind * side`, with PAWN..KING = 1..6 and side +1 or -1. It holds
  `side * 99` for an en-passant marker and 0 for an empty square.
- The touch map is written only by `make_move`.

The model covers:
- the six piece generators (pawn, knight, bishop, rook, queen, king), the shared ray caster
  and the dispatch table over piece kinds;
- the attack test `is_hit`;
- move application `make_move`;
- the legality test `is_legal`;
- the mate/stalemate query `can_move`;
- the row-major lookup `find`, the deep copy `cpy_board` and `signum`;
- the four-character move reader `read_move`.

The engine is modelled as the C code is written, quirks included:
- `make_move` picks its special case from the square (to.rank, from.file), not from the
  origin.
- `is_hit` gives up at the first piece kind whose capture list is empty.
- The castling branch of `is_legal` compares an integer rank with 7.5 or 0.5, so it never
  fires.
- The pawn's double step looks at the touch value of the two-ahead square.

Where the comments in chess.h (chess.h:140 "if pawn is at home", chess.h:318 "remember these
squares were touched", chess.h:354 "has not touched king or rook yet") or the usual rules of
chess disagree with the code, the model follows the code:
- Castling is never accepted (`Rules.CastlingRejected`): the castling branch is dead, and the
  king's generator lists only the eight neighbouring squares.
- The touch map has no "untouched" meaning. Only the reads and writes the code performs are
  modelled.
- A pawn's straight advance never promotes and never places a marker.
- An attack can be missed: `Attack.RookAttackMissed` exhibits an attacked king that `is_hit`
  reports as safe, and `Rules.LegalMoveIntoAttack` shows `is_legal` accepting a king's step
  onto that attacked square.
- `can_move` and `is_legal` agree in one direction only: every legal move makes `can_move`
  answer yes (`Rules.LegalImpliesCanMove`), but `can_move` also counts a quiet move onto the
  opponent's en-passant marker, which `is_legal` rejects
  (`Rules.QuietOntoMarkerCountedButIllegal`). Without such a marker the two agree
  (`Rules.CanMoveImpliesLegal`).

Layout:
- `board.dfy` (module `ChessBoard`): piece codes, squares, the `Board` class, `CopyBoard`
  and `Find`. The class holds the two `array2<int>` maps and a ghost value view that
  `Valid()` ties to them square by square.
- `movegen.dfy` (module `MoveGen`): the generators. Each is a method with the
  C loops, proved equal to a specification function on the value view.
- `movegen_lemmas.dfy` (module `MoveGenLemmas`): square-by-square characterisations of the
  generators.
- `attack.dfy` (module `Attack`): `is_hit`.
- `rules.dfy` (module `Rules`): `make_move`, `is_legal`, `can_move`.
- `notation.dfy` (module `Notation`): `read_move`.

C's `(int)` conversion of a floating value is modelled as truncation of a real (`Rules.Trunc`).
The integer values involved are small, so no overflow arises.

## Model

| member | source | states |
|---|---|---|
| ChessBoard.Signum | chess.h:61-64 | the result is 1, -1 or 0 exactly when x is positive, negative or zero |
| ChessBoard.Board.constructor | chess.h:20-24 | a board over two 8x8 maps whose value view agrees with the maps square by square |
| ChessBoard.CopyBoard | chess.h:617-636 | the copy has fresh maps, distinct from the original, holding the same pieces and touch values |
| ChessBoard.FindFromCorrect | chess.h:604-613 | the scan from (rank, file) on returns the first later square in row-major order holding exactly v, or nothing when no later square holds v |
| ChessBoard.FindFirstCorrect | chess.h:600-614 | `find` returns the first row-major square whose value is exactly v, every earlier square holds something else, and it returns nothing iff no square holds v |
| ChessBoard.Find | chess.h:600-614 | the nested scan returns exactly that first square of piece * player |
| MoveGen.BishopDirs | chess.h:203-207 | the bishop loops visit the four diagonals (1,1), (1,-1), (-1,1), (-1,-1) in that order |
| MoveGen.CastRay | chess.h:66-89 | the step loop appends exactly the ray specification to the lists it is given |
| MoveGen.PawnMoves | chess.h:122-162 | the pawn generator's lists equal the pawn specification |
| MoveGen.KnightMoves | chess.h:164-194 | the knight generator's lists equal the knight specification over the eight offsets, in order |
| MoveGen.BishopMoves | chess.h:196-212 | the bishop generator's lists equal four rays cast in the loop order |
| MoveGen.RookMoves | chess.h:214-229 | the rook generator's lists equal four rays (0,1), (0,-1), (1,0), (-1,0) in the loop order |
| MoveGen.QueenMoves | chess.h:231-246 | the queen generator's lists equal the eight rays of the 3x3 block, with the centre skipped |
| MoveGen.KingMoves | chess.h:248-278 | the king generator's lists equal the king specification over the 3x3 block, with the centre skipped |
| MoveGen.ListMoves | chess.h:56 | dispatching on kind 1..6 yields that kind's generator lists |
| MoveGenLemmas.LeapsMember | chess.h:176-191 | a leaping piece lists a square as quiet iff some offset reaches it, it is on the board, not friendly-signed and not a real piece; it lists it as a capture iff the same holds with a real piece there |
| MoveGenLemmas.KnightReach | chess.h:169-173 | the eight knight offsets reach exactly the squares one rank and two files away, or two ranks and one file away |
| MoveGenLemmas.KingReach | chess.h:254-257 | the 3x3 block without its centre reaches exactly the eight neighbouring squares |
| MoveGenLemmas.KnightTargets | chess.h:176-191 | a knight move is listed iff it is an on-board knight jump onto a square whose sign is not the player's; it is a capture iff the value there is nonzero and not a marker, so an enemy marker is quiet and a friendly marker is left out |
| MoveGenLemmas.KingTargets | chess.h:254-275 | the same for the king's eight neighbouring squares |
| MoveGenLemmas.RayMember | chess.h:72-88 | a ray adds to the quiet list exactly the on-board squares that are empty or a marker, not friendly, and have only such squares before them; it adds to the capture list exactly the first real piece, when that piece is the opponent's |
| MoveGenLemmas.RayStopsAtPiece | chess.h:78-87 | no square beyond the first real piece of a ray is listed |
| MoveGenLemmas.SlideMember | chess.h:196-246 | a square is listed by a slider iff one of its non-zero directions' rays lists it |
| MoveGenLemmas.SlideSound | chess.h:66-89 | everything a slider lists is on the board and not the origin; quiet squares hold no real piece and are not friendly, captures hold an opponent's real piece |
| MoveGenLemmas.PawnTargets | chess.h:128-160 | one step is listed iff the square ahead is empty; two steps iff, in addition, the two-ahead square has touch value 0 and is empty; a diagonal capture iff the diagonal holds a value of the opponent's sign, markers included |
| MoveGenLemmas.RayCaptureReverse | chess.h:66-89 | if a ray from a real piece captures on q, the opposite ray from q, for the other side, captures on that piece's square |
| MoveGenLemmas.SlideCapturesSymmetric | chess.h:196-246 | for a direction table closed under negation, a slider on pos captures the opposing piece on q iff a slider on q, for the other side, captures the piece on pos |
| MoveGenLemmas.PawnCapturesSymmetric | chess.h:148-160 | a pawn on pos captures on q iff a pawn of the other side on q captures on pos |
| MoveGenLemmas.KnightCapturesSymmetric | chess.h:164-194 | between two real pieces of opposite sides, a knight on either captures the other or neither does |
| MoveGenLemmas.BishopCapturesSymmetric | chess.h:196-212 | the same for the bishop's four diagonals |
| MoveGenLemmas.RookCapturesSymmetric | chess.h:214-229 | the same for the rook's four orthogonal rays |
| MoveGenLemmas.QueenCapturesSymmetric | chess.h:231-246 | the same for the queen's eight rays |
| MoveGenLemmas.KingCapturesSymmetric | chess.h:248-278 | the same for the king's eight neighbouring squares |
| MoveGenLemmas.GenerateCapturesSymmetric | chess.h:56 | for every kind, the generator from pos captures the opposing real piece on q iff the generator from q, for the other side, captures the piece on pos |
| MoveGenLemmas.GenerateSound | chess.h:56 | for every kind, listed squares are on the board and are not the origin; quiet squares are not friendly and hold no real piece; captures have the opponent's sign (for non-pawns a real piece); no square is in both lists |
| Attack.ScanForKind | chess.h:449-464 | the inner scan answers yes iff some listed square holds a piece of the requested kind, of either side |
| Attack.IsHit | chess.h:428-469 | the loop over kinds returns the attack-test value on the current board |
| Attack.HitFromWitness | chess.h:434-462 | a kind whose capture list holds a piece of that kind makes the test answer yes, as long as no kind up to it has an empty capture list |
| Attack.HitFromHasWitness | chess.h:434-468 | every yes comes from such a kind |
| Attack.HitIff | chess.h:434-468 | the test answers yes iff some kind k has a capture square holding a piece of kind k and no kind up to k has an empty capture list |
| Attack.HitFromStops | chess.h:447 | from any kind on, an empty capture list before any match makes the answer no |
| Attack.HitStopsAtEmpty | chess.h:447 | once a kind's capture list is empty with no match before it, the answer is no, whatever later kinds would find |
| Attack.AttackedIffReverse | chess.h:434-468 | when the target holds a piece of the player, "some opponent's piece of kind k, moving by its own generator, captures on the target" holds iff "some opponent's piece of kind k stands on a square that kind k's generator, run from the target for the player, captures": the reversed-movement principle the test relies on is sound |
| Attack.HitSound | chess.h:449-461 | a yes always names an opponent's piece of some kind k standing on a square the generator of kind k lists as a capture from the target; when the target holds a piece of the player, that opponent's piece attacks the target by its own moves |
| Attack.PawnSeesNothing | chess.h:148-160 | from (0, 4) on the example board, the pawn pattern has no capture |
| Attack.RookSeesRook | chess.h:214-229 | from (0, 4) on the example board, the rook pattern captures the enemy rook on (1, 4) |
| Attack.RookAttackMissed | chess.h:434-468 | a king with an enemy rook directly in front of it is attacked (the rook's own generator captures on the king's square, and the rook pattern from the king reaches the rook), yet the test answers no |
| Rules.Trunc | chess.h:309 | C's float-to-int conversion: the result is within 1 of x, on the side toward zero |
| Rules.FarFileValues | chess.h:298-309 | (int)(4 + 3.5 * v) is 7 for v = 1 and 0 for v = -1 |
| Rules.Apply | chess.h:281-323 | when the squares differ, the target gets the origin's value, or QUEEN * player when the promotion branch fires; the origin becomes 0; both touched squares get touch value 0 |
| Rules.MakeMove | chess.h:281-323 | the in-place update leaves the board equal to Apply of the old board; the maps are the same arrays, so the caller's board changes |
| Rules.ApplyFrame | chess.h:290-319 | the touch map changes only at the move's two squares; any other square of the piece map changes only when it is the marker square ahead of the origin (to side * 99, double step) or one of the two rook squares on the origin's rank (castling), each only when its branch fires |
| Rules.ApplySpecialWrites | chess.h:296-306 | a double step leaves player * 99 on the square it passes over; a castling step leaves the player's rook beside the origin towards the target and empties the corner on that side unless the king lands on it |
| Rules.PawnAdvanceIsPlain | chess.h:288 | a straight advance onto an empty square just moves the piece: the branch is chosen by the empty target square, so no marker and no queen appear |
| Rules.DiagonalOntoFarRankPromotes | chess.h:305-310 | any piece moving off its file onto the far rank, with a pawn of either side on (to.rank, from.file), becomes a queen of the player |
| Rules.CastlingNever | chess.h:350-356 | the castling guard is false on every board for both sides |
| Rules.CastlingRejected | chess.h:350-393 | a king's two-file step along its rank is rejected on every board: the castling branch is dead and the step is in neither of the king's lists |
| Rules.LegalOnlyOwnPiece | chess.h:342 | a move is accepted only if the origin holds a value with the player's sign |
| Rules.LegalIff | chess.h:325-426 | a move is accepted iff the origin has the player's sign; the target is in the capture list when it holds any nonzero value (markers included) and in the quiet list when it is 0; and the player's king, found on a copy after the move, is not hit |
| Rules.KingStepLegal | chess.h:382-425 | a king's step onto an empty neighbouring square is accepted iff the king, found on the moved copy, is not hit |
| Rules.LegalMoveIntoAttack | chess.h:325-426 | is_legal accepts the king's step from (0, 3) to (0, 4) in front of an enemy rook on (1, 4), and after it the king is attacked |
| Rules.KnightOntoMarkerIllegal | chess.h:386-393 | a knight jump onto the opponent's marker is generated as quiet, yet it is rejected, because the nonzero target selects the capture list |
| Rules.IsLegal | chess.h:325-426 | returns the legality value; it declares no modifies clause, so the argument board is provably unchanged |
| Rules.Contains | chess.h:395-410 | the list scan finds the target iff it is in the list |
| Rules.IsKingSafe | chess.h:417-425 | the king-safety tail answers yes iff the player's king is found and not hit |
| Rules.TryMove | chess.h:570-578 | moving on a deep copy answers whether the move leaves the king safe; the board itself is not modified |
| Rules.EscapeAfterWitness | chess.h:561-590 | a scan that starts at or before a destination after which the king is safe succeeds |
| Rules.EscapeAfterNone | chess.h:561-593 | a scan over a list with no such destination fails |
| Rules.TryDestinations | chess.h:561-593 | scanning one list succeeds iff some destination in it leaves the king safe |
| Rules.PieceCanMove | chess.h:549-595 | the square holds one of the player's pieces with a generated quiet or capture destination after which its king is not hit |
| Rules.LegalImpliesCanMove | chess.h:529-598 | if some move is accepted by is_legal, can_move's answer is yes |
| Rules.QuietOntoMarkerCountedButIllegal | chess.h:386-393 | the converse fails: a knight jump onto the opponent's marker that leaves the king safe makes can_move answer yes, yet is_legal rejects it |
| Rules.CanMoveImpliesLegal | chess.h:529-598 | with no opponent's marker on the board, a yes from can_move names a move that is_legal accepts |
| Rules.MovableAfterIff | chess.h:546-547 | the rest of the scan from (rank, file) succeeds iff some square at or after it in row-major order is movable |
| Rules.MovableAfterStep | chess.h:546-547 | one step of the scan: the square itself, or a later one |
| Rules.CanMoveByScan | chess.h:546-597 | the row-major scan succeeds iff some square is movable |
| Rules.CanMove | chess.h:529-598 | can_move answers yes iff some square holds one of the player's pieces with a generated quiet or capture destination after which the player's king, found on the moved copy, is not hit |
| Notation.IndexInCorrect | chess.h:660-666 | the table lookup finds c iff c is in the table, and then returns the index of its first occurrence |
| Notation.DecodeChar | chess.h:660-667 | a decoded character is an index 0..7 |
| Notation.DecodeCharMeaning | chess.h:660-667 | a character decodes iff it is a file letter or a rank digit; a letter decodes to its index in "hgfedcba", any other decoded character to its index in "12345678" |
| Notation.TableCodes | chess.h:653-654 | the letters run down from 'h' and the digits up from '1' |
| Notation.DecodeFile | chess.h:653 | file letter k decodes to k (h is 0, a is 7) |
| Notation.DecodeRank | chess.h:654 | rank digit k decodes to k (1 is 0, 8 is 7) |
| Notation.TerminatorDecodesToNothing | chess.h:653-654 | `'\0'` is none of the sixteen table characters, so the model's lookup, which searches exactly those characters, decodes it to nothing; what C's `strchr` does with it on these unterminated tables is undefined (see Left out) |
| Notation.ParseMove | chess.h:650-671 | a move that is read has both squares on the board |
| Notation.ReadMove | chess.h:650-671 | the loop's result equals the move reading, with character i stored at row i / 2, column 1 - i % 2 |
| Notation.ParseRender | chess.h:650-671 | reading the four characters of any on-board move gives that move back |
| Notation.ParseSucceedsIff | chess.h:660-669 | a move is read iff there are at least four characters and each of the first four is a file letter or a rank digit, in any position |
| Notation.ParseIgnoresRest | chess.h:660 | characters after the fourth are never looked at |
| Notation.ReadKingsPawn | chess.h:650-671 | "e2e4" is the move from (rank 1, file 3) to (rank 3, file 3) |
| Notation.ReadSwappedNotation | chess.h:660-667 | "1a2b" reads digits as files and letters as ranks: the move from (7, 0) to (6, 1) |

## Left out

- `play_game` (chess.h:472-527) is left out: it is a stdin/stdout turn loop. The single step inside it, which plays a move and clears the opponent's marker, is not modelled either.
- `print_board` and `free_board` are left out: they only render the board or release memory.
- `malloc_from_tmp`'s heap layout is left out. The model uses a pair of sequences, where an empty sequence stands for a NULL list and the count in element 0 is the sequence's length.
- Memory management is left out: freeing, the leaks, and the use-after-free of `pos` in the castling loop (chess.h:362-375). That loop is unreachable anyway.
- The castling branch's body (chess.h:358-376) is not modelled: `Rules.CastlingNever` proves its guard is always false, so the method records the branch as dead.
- Rules.IsLegal: the uninitialised `islegal` (chess.h:340, 414) is modelled as rejection when the target is not in the list.
- Rules.IsLegal: requires the origin, when it has the player's sign, to hold a real piece kind. With its own marker there, the C code indexes `list_moves` out of bounds.
- Rules.CanMove: requires that the player has no own marker on the board (`OwnValuesArePieces`), for the same out-of-bounds reason (chess.h:554).
- Rules.KingSafe: a board with no king of the player's is treated as unsafe. The C code passes a NULL position from `find` to `is_hit`.
- MoveGen.PawnMoves: the C pawn generator never bounds-checks the square ahead, the two-ahead square or the diagonals (chess.h:129-154). The model checks explicitly, and an off-board square gives no move; the C code reads out of bounds there.
- Notation.ParseMove: the table lookups are not modelled as C runs them. `abcs` and `nums` are 8-character arrays with no terminator (chess.h:653-654), and `strchr` reads on until it meets the character or a NUL. So every lookup that misses its table is undefined behaviour in C, `'\0'` included, and so is every digit looked up in `abcs` first (chess.h:662), such as the '2' of "e2e4": the result may be a pointer past the table, giving an index of 8 or more, rather than NULL. The model looks up exactly the sixteen table characters: a miss is None, and `'\0'`, read at the end of the input and at every later position, decodes to nothing.
- Notation.ReadMove: returns the move as a value rather than a freshly allocated `int**`.
- Floating point is modelled with reals. The values involved (7.5, 0.5, 3.5) are exact in binary floating point, so the real model agrees with C.
