/** Reading a move typed as four characters (`read_move`). Each character is looked up
    first among the file letters and then among the rank digits, whatever its position, and
    its index in that table is stored; characters 0 and 1 make the origin, characters 2 and 3
    the destination, each pair written as (file, rank). */
module Notation {
  import opened ChessBoard

  /** The file letters; index k is file k, so the h-file is file 0. */
  const FILES: string := "hgfedcba"
  /** The rank digits; index k is rank k. */
  const RANKS: string := "12345678"

  /** The character the reader sees at position i: at the end of the input C reads the string
      terminator, and the model reads '\0' at every later position as well. */
  function CharAt(str: string, i: nat): char
  {
    if i < |str| then str[i] else '\0'
  }

  /** strchr over a character table, searching only the table's own characters: the position
      of the first occurrence of c, or None. The C tables have no terminator, so in C a lookup
      that misses reads past the table and its result is undefined; here a miss is None. */
  function IndexIn(table: string, c: char): Option<int>
  {
    if |table| == 0 then None
    else if table[0] == c then Some(0)
    else match IndexIn(table[1..], c)
      case None => None
      case Some(k) => Some(k + 1)
  }

  /** IndexIn finds c iff c is in the table, and then at its first occurrence. */
  lemma {:induction false} IndexInCorrect(table: string, c: char)
    ensures IndexIn(table, c).None? <==> c !in table
    ensures IndexIn(table, c).Some? ==>
      var k := IndexIn(table, c).value;
      0 <= k < |table| && table[k] == c && c !in table[..k]
  {
    if |table| > 0 && table[0] != c {
      IndexInCorrect(table[1..], c);
      assert table == [table[0]] + table[1..];
      if IndexIn(table[1..], c).Some? {
        var k := IndexIn(table[1..], c).value;
        assert table[..k + 1] == [table[0]] + table[1..][..k];
      }
    }
  }

  /** One character of a move: its index among the file letters, else among the rank digits,
      else nothing. */
  function DecodeChar(c: char): (r: Option<int>)
    ensures r.Some? ==> 0 <= r.value < 8
  {
    IndexInCorrect(FILES, c);
    IndexInCorrect(RANKS, c);
    match IndexIn(FILES, c)
    case Some(k) => Some(k)
    case None => IndexIn(RANKS, c)
  }

  /** A character decodes iff it is in one of the tables, and it decodes to its position in
      the first table that has it. */
  lemma DecodeCharMeaning(c: char)
    ensures DecodeChar(c).Some? <==> c in FILES || c in RANKS
    ensures DecodeChar(c).Some? && c in FILES ==> FILES[DecodeChar(c).value] == c
    ensures DecodeChar(c).Some? && c !in FILES ==> RANKS[DecodeChar(c).value] == c
  {
    IndexInCorrect(FILES, c);
    IndexInCorrect(RANKS, c);
  }

  /** What read_move returns: None when one of the first four characters is in neither
      table, otherwise the move whose origin is (rank, file) = (character 1, character 0)
      and whose destination is (character 3, character 2). */
  function ParseMove(str: string): (r: Option<Move>)
    ensures r.Some? ==> OnBoard(r.value.from) && OnBoard(r.value.to)
  {
    match (DecodeChar(CharAt(str, 0)), DecodeChar(CharAt(str, 1)),
           DecodeChar(CharAt(str, 2)), DecodeChar(CharAt(str, 3)))
    case (Some(d0), Some(d1), Some(d2), Some(d3)) => Some(Move(Square(d1, d0), Square(d3, d2)))
    case _ => None
  }

  /** read_move: character i goes to row i / 2, column 1 - i % 2 of a 2 x 2 result. */
  method ReadMove(str: string) returns (r: Option<Move>)
    ensures r == ParseMove(str)
  {
    var cells := new int[2, 2];
    for i := 0 to 4
      invariant forall i' :: 0 <= i' < i ==> DecodeChar(CharAt(str, i')).Some?
      invariant i > 0 ==> cells[0, 1] == DecodeChar(CharAt(str, 0)).value
      invariant i > 1 ==> cells[0, 0] == DecodeChar(CharAt(str, 1)).value
      invariant i > 2 ==> cells[1, 1] == DecodeChar(CharAt(str, 2)).value
      invariant i > 3 ==> cells[1, 0] == DecodeChar(CharAt(str, 3)).value
    {
      var k := DecodeChar(CharAt(str, i));
      if k.None? {
        return None;
      }
      cells[i / 2, 1 - i % 2] := k.value;
    }
    return Some(Move(Square(cells[0, 0], cells[0, 1]), Square(cells[1, 0], cells[1, 1])));
  }

  /** The four characters that name an on-board move. */
  function Render(m: Move): (str: string)
    requires OnBoard(m.from) && OnBoard(m.to)
    ensures |str| == 4
  {
    [FILES[m.from.file], RANKS[m.from.rank], FILES[m.to.file], RANKS[m.to.rank]]
  }

  /** The letters run down from 'h' and the digits up from '1', so no character is in both
      tables and none is listed twice. */
  lemma TableCodes()
    ensures forall i :: 0 <= i < 8 ==> FILES[i] as int == 'h' as int - i
    ensures forall i :: 0 <= i < 8 ==> RANKS[i] as int == '1' as int + i
  {
  }

  /** Every file letter decodes to its own index. */
  lemma DecodeFile(k: int)
    requires 0 <= k < 8
    ensures DecodeChar(FILES[k]) == Some(k)
  {
    TableCodes();
    IndexInCorrect(FILES, FILES[k]);
  }

  /** Every rank digit decodes to its own index: no digit is also a file letter. */
  lemma DecodeRank(k: int)
    requires 0 <= k < 8
    ensures DecodeChar(RANKS[k]) == Some(k)
  {
    TableCodes();
    assert forall i :: 0 <= i < 8 ==> FILES[i] != RANKS[k];
    IndexInCorrect(FILES, RANKS[k]);
    IndexInCorrect(RANKS, RANKS[k]);
  }

  /** Reading the rendering of an on-board move gives the move back. */
  lemma ParseRender(m: Move)
    requires OnBoard(m.from) && OnBoard(m.to)
    ensures ParseMove(Render(m)) == Some(m)
  {
    var str := Render(m);
    DecodeFile(m.from.file);
    DecodeRank(m.from.rank);
    DecodeFile(m.to.file);
    DecodeRank(m.to.rank);
    assert CharAt(str, 0) == FILES[m.from.file];
    assert CharAt(str, 1) == RANKS[m.from.rank];
    assert CharAt(str, 2) == FILES[m.to.file];
    assert CharAt(str, 3) == RANKS[m.to.rank];
  }

  /** '\0' is none of the sixteen table characters, so the lookup, which searches exactly
      those characters, decodes it to nothing. */
  lemma TerminatorDecodesToNothing()
    ensures DecodeChar('\0').None?
  {
    TableCodes();
    assert forall i :: 0 <= i < 8 ==> FILES[i] != '\0' && RANKS[i] != '\0';
    DecodeCharMeaning('\0');
  }

  /** A move is read iff there are at least four characters and each of the first four is a
      file letter or a rank digit; in particular a letter may stand where a digit is expected. */
  lemma ParseSucceedsIff(str: string)
    ensures ParseMove(str).Some? <==>
      |str| >= 4 && forall i :: 0 <= i < 4 ==> str[i] in FILES || str[i] in RANKS
  {
    if |str| >= 4 {
      forall i | 0 <= i < 4
        ensures DecodeChar(CharAt(str, i)).Some? <==> str[i] in FILES || str[i] in RANKS
      {
        DecodeCharMeaning(str[i]);
      }
      assert ParseMove(str).Some? <==> forall i :: 0 <= i < 4 ==> DecodeChar(CharAt(str, i)).Some?;
    } else {
      TerminatorDecodesToNothing();
      assert DecodeChar(CharAt(str, |str|)).None?;
    }
  }

  /** Only the first four characters are looked at. */
  lemma ParseIgnoresRest(str: string, rest: string)
    requires |str| == 4
    ensures ParseMove(str + rest) == ParseMove(str)
  {
    forall i: nat | i < 4
      ensures CharAt(str + rest, i) == CharAt(str, i)
    {
    }
  }

  /** "e2e4" moves from rank 1, file 3 to rank 3, file 3. */
  lemma ReadKingsPawn()
    ensures ParseMove("e2e4") == Some(Move(Square(1, 3), Square(3, 3)))
  {
    DecodeFile(3);
    DecodeRank(1);
    DecodeRank(3);
    assert FILES[3] == 'e' && RANKS[1] == '2' && RANKS[3] == '4';
  }

  /** A digit in a letter's place is read as a file and a letter in a digit's place as a rank:
      "1a2b" is the move from rank 7, file 0 to rank 6, file 1. */
  lemma ReadSwappedNotation()
    ensures ParseMove("1a2b") == Some(Move(Square(7, 0), Square(6, 1)))
  {
    DecodeRank(0);
    DecodeFile(7);
    DecodeRank(1);
    DecodeFile(6);
    assert RANKS[0] == '1' && FILES[7] == 'a' && RANKS[1] == '2' && FILES[6] == 'b';
  }
}
