/**
 * The starting token lists and the piece-letter lookup of
 * src/constants/tokens.js. A starting token `{ type: 'rook' }` is written
 * here by its kind alone.
 */
module Tokens {
  import opened Wrappers
  import opened Enums

  /** WHITE_STARTING_POOL. */
  const WhiteStartingPool: seq<Kind> := [Rook, Knight, Bishop, Queen]

  /** BLACK_STARTING_POOL. */
  const BlackStartingPool: seq<Kind> := [Rook, Knight, Bishop, Queen]

  /** NEUTRAL_STARTING_POOL. */
  const NeutralStartingPool: seq<Kind> := [Knight, Bishop]

  /** The kinds that occur in a pool. */
  function KindsIn(pool: seq<Kind>): (r: set<Kind>)
    ensures forall i :: 0 <= i < |pool| ==> pool[i] in r
    ensures forall k :: k in r ==> k in pool
  {
    set i | 0 <= i < |pool| :: pool[i]
  }

  /**
   * The three starting pools: their sizes, that no pool repeats a kind,
   * the kinds each holds, that pawns and kings are in none of them, and
   * that together they hold exactly rook, knight, bishop and queen.
   */
  lemma StartingPools()
    ensures |WhiteStartingPool| == |BlackStartingPool| == 4 && |NeutralStartingPool| == 2
    ensures WhiteStartingPool == BlackStartingPool
    ensures NoRepeats(WhiteStartingPool) && NoRepeats(BlackStartingPool) && NoRepeats(NeutralStartingPool)
    ensures KindsIn(WhiteStartingPool) == KindsIn(BlackStartingPool) == {Rook, Knight, Bishop, Queen}
    ensures KindsIn(NeutralStartingPool) == {Knight, Bishop}
    ensures Pawn !in WhiteStartingPool + BlackStartingPool + NeutralStartingPool
    ensures King !in WhiteStartingPool + BlackStartingPool + NeutralStartingPool
    ensures KindsIn(WhiteStartingPool) + KindsIn(BlackStartingPool) + KindsIn(NeutralStartingPool)
         == {Rook, Knight, Bishop, Queen}
  {
    assert WhiteStartingPool[0] == Rook && WhiteStartingPool[1] == Knight;
    assert WhiteStartingPool[2] == Bishop && WhiteStartingPool[3] == Queen;
    assert NeutralStartingPool[0] == Knight && NeutralStartingPool[1] == Bishop;
  }

  /** The one-letter piece type the rules engine uses for a kind. */
  function PieceLetter(k: Kind): char
  {
    match k
    case Pawn => 'p'
    case Rook => 'r'
    case Knight => 'n'
    case Bishop => 'b'
    case Queen => 'q'
    case King => 'k'
  }

  /** The letters PIECE_TO_TOKEN_MAP has entries for. */
  const PieceLetters: seq<char> := "prnbqk"

  /**
   * PIECE_TO_TOKEN_MAP: the kind a one-letter piece type stands for, and
   * `None` for a letter the table has no entry for.
   */
  function PieceToToken(letter: char): (r: Option<Kind>)
    ensures r.Some? <==> letter in PieceLetters
    ensures r.Some? ==> PieceLetter(r.value) == letter
  {
    match letter
    case 'p' => Some(Pawn)
    case 'r' => Some(Rook)
    case 'n' => Some(Knight)
    case 'b' => Some(Bishop)
    case 'q' => Some(Queen)
    case 'k' => Some(King)
    case _ => None
  }

  /** Every kind is the image of its own letter, so the table is onto the six kinds. */
  lemma PieceToTokenCoversKinds(k: Kind)
    ensures PieceLetter(k) in PieceLetters
    ensures PieceToToken(PieceLetter(k)) == Some(k)
  {
  }

  /** Two letters with the same entry are the same letter. */
  lemma PieceToTokenInjective(a: char, b: char)
    requires PieceToToken(a).Some? && PieceToToken(a) == PieceToToken(b)
    ensures a == b
  {
  }
}
