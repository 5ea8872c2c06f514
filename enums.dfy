/**
 * The closed vocabularies of the game: the six piece kinds (the keys of the
 * symbol tables in src/constants/enums.js, which the source spells as
 * strings), the two sides, the two turn states, and the glyph tables.
 */
module Enums {

  /** A piece kind; `'pawn'`, `'rook'`, ... in the source. */
  datatype Kind = Pawn | Rook | Knight | Bishop | Queen | King

  /** A side; `'white'` and `'black'` in the source. */
  datatype Color = White | Black

  /** A piece on the board. */
  datatype Piece = Piece(color: Color, kind: Kind)

  /** TURN_STATES: the two states of a turn. */
  datatype TurnState = SelectPiece | SelectNeutralToken

  /** No kind occurs twice in `ks`. */
  predicate NoRepeats(ks: seq<Kind>)
  {
    forall i, j :: 0 <= i < j < |ks| ==> ks[i] != ks[j]
  }

  /** One of the six white chess glyphs, U+2654 to U+2659. */
  predicate IsWhiteGlyph(g: char)
  {
    '\U{2654}' <= g <= '\U{2659}'
  }

  /** The other side. */
  function Opponent(c: Color): (r: Color)
    ensures r != c
  {
    match c
    case White => Black
    case Black => White
  }

  /** The string each TURN_STATES entry is bound to. */
  function TurnStateValue(t: TurnState): string
  {
    match t
    case SelectPiece => "SELECT_PIECE"
    case SelectNeutralToken => "SELECT_NEUTRAL_TOKEN"
  }

  /** There are exactly two turn states, and their string values differ. */
  lemma TurnStatesExactlyTwo(t: TurnState)
    ensures t == SelectPiece || t == SelectNeutralToken
    ensures SelectPiece != SelectNeutralToken
    ensures TurnStateValue(SelectPiece) != TurnStateValue(SelectNeutralToken)
  {
  }

  /** PIECE_SYMBOLS: the white chess glyph drawn for a kind. */
  function PieceSymbol(k: Kind): (g: char)
    ensures IsWhiteGlyph(g)
  {
    match k
    case King => '\U{2654}'
    case Queen => '\U{2655}'
    case Rook => '\U{2656}'
    case Bishop => '\U{2657}'
    case Knight => '\U{2658}'
    case Pawn => '\U{2659}'
  }

  /**
   * TOKEN_SYMBOLS: the glyph of a token of a kind. Each is the black chess
   * glyph of the same piece whose white glyph PIECE_SYMBOLS holds, which in
   * Unicode sits six code points further on.
   */
  function TokenSymbol(k: Kind): (g: char)
    ensures g as int == PieceSymbol(k) as int + 6
  {
    match k
    case Pawn => '\U{265F}'
    case Rook => '\U{265C}'
    case Knight => '\U{265E}'
    case Bishop => '\U{265D}'
    case Queen => '\U{265B}'
    case King => '\U{265A}'
  }

  /** No two kinds share a PIECE_SYMBOLS glyph. */
  lemma PieceSymbolsDistinct(a: Kind, b: Kind)
    requires a != b
    ensures PieceSymbol(a) != PieceSymbol(b)
  {
  }

  /** No two kinds share a TOKEN_SYMBOLS glyph. */
  lemma TokenSymbolsDistinct(a: Kind, b: Kind)
    requires a != b
    ensures TokenSymbol(a) != TokenSymbol(b)
  {
  }

  /** A token glyph is never a piece glyph, so the two tables never clash. */
  lemma SymbolTablesDisjoint(a: Kind, b: Kind)
    ensures TokenSymbol(a) != PieceSymbol(b)
  {
  }
}
