/**
 * The count-based turn engine of src/scenes/GameScene.js: who is on move,
 * what is selected, and three tables that count, per token kind, the tokens
 * white holds, black holds and the neutral bank holds. The pure part below
 * (Engine, Spent, Switched) is the specification the class is proved
 * against.
 */
module GameScene {
  import opened Wrappers
  import opened Enums

  /** A count table: how many tokens of each token kind an owner holds. */
  type Table = map<Kind, int>

  /** The four kinds a count table has entries for, in the source's order. */
  const TokenKinds: seq<Kind> := [Rook, Knight, Bishop, Queen]

  predicate IsTokenKind(k: Kind)
  {
    k == Rook || k == Knight || k == Bishop || k == Queen
  }

  /** A table has an entry for exactly the four token kinds, none for pawns or kings. */
  predicate WellFormed(t: Table)
  {
    Rook in t && Knight in t && Bishop in t && Queen in t && Pawn !in t && King !in t
  }

  /** The sum of a table's counts over the kinds `ks`. */
  function Sum(t: Table, ks: seq<Kind>): int
    requires forall k :: k in ks ==> k in t
  {
    if ks == [] then 0 else t[ks[0]] + Sum(t, ks[1..])
  }

  /** Changing one count by `d` changes the sum by `d` if that kind is summed and not at all otherwise. */
  lemma {:induction false} SumUpdate(t: Table, ks: seq<Kind>, k: Kind, d: int)
    requires forall j :: j in ks ==> j in t
    requires k in t && NoRepeats(ks)
    ensures Sum(t[k := t[k] + d], ks) == Sum(t, ks) + (if k in ks then d else 0)
  {
    if ks != [] {
      assert NoRepeats(ks[1..]) by {
        forall i, j | 0 <= i < j < |ks[1..]| ensures ks[1..][i] != ks[1..][j] {
          assert ks[1..][i] == ks[i + 1] && ks[1..][j] == ks[j + 1];
        }
      }
      SumUpdate(t, ks[1..], k, d);
      if ks[0] == k {
        assert k !in ks[1..] by {
          forall i | 0 <= i < |ks[1..]| ensures ks[1..][i] != k {
            assert ks[1..][i] == ks[i + 1];
          }
        }
      }
      assert k in ks <==> ks[0] == k || k in ks[1..];
    }
  }

  /** The number of tokens a table counts. */
  function Count(t: Table): int
    requires WellFormed(t)
  {
    Sum(t, TokenKinds)
  }

  /** The engine's state as a value: every field of the scene except the board. */
  datatype Engine = Engine(
    currentPlayer: Color,
    selectedPiece: Option<Piece>,
    selectedToken: Option<Kind>,
    whitePieces: Table,
    blackPieces: Table,
    neutralPool: Table)

  predicate ValidEngine(e: Engine)
  {
    WellFormed(e.whitePieces) && WellFormed(e.blackPieces) && WellFormed(e.neutralPool)
  }

  /** The table of side `c`. */
  function TokensOf(e: Engine, c: Color): Table
  {
    if c == White then e.whitePieces else e.blackPieces
  }

  /** The table of the side on move (`currentTokens` in the source). */
  function CurrentTokens(e: Engine): Table
  {
    TokensOf(e, e.currentPlayer)
  }

  /** The number of tokens in all three tables together. */
  function Total(e: Engine): int
    requires ValidEngine(e)
  {
    Count(e.whitePieces) + Count(e.blackPieces) + Count(e.neutralPool)
  }

  /** The state the constructor builds. */
  const Initial: Engine := Engine(
    White, None, None,
    map[Rook := 1, Knight := 1, Bishop := 1, Queen := 0],
    map[Rook := 1, Knight := 1, Bishop := 1, Queen := 0],
    map[Rook := 1, Knight := 1, Bishop := 1, Queen := 1])

  /**
   * canSpendToken: whether a piece of kind `k` may move. Pawns and kings
   * always may; any other kind only while the side on move holds a token
   * of it.
   */
  predicate CanSpend(e: Engine, k: Kind)
    ensures k == Pawn || k == King ==> CanSpend(e, k)
    ensures IsTokenKind(k) && ValidEngine(e) ==>
              (CanSpend(e, k) <==> TokensOf(e, e.currentPlayer)[k] >= 1)
  {
    (k in CurrentTokens(e) && CurrentTokens(e)[k] > 0) || k == Pawn || k == King
  }

  /** Whether `k` may move is decided by the side on move and its own table alone. */
  lemma CanSpendReadsOnlyMover(e1: Engine, e2: Engine, k: Kind)
    requires e1.currentPlayer == e2.currentPlayer
    requires TokensOf(e1, e1.currentPlayer) == TokensOf(e2, e2.currentPlayer)
    ensures CanSpend(e1, k) == CanSpend(e2, k)
  {
  }

  /**
   * spendToken: when a token is selected, one token of kind `k` leaves the
   * table of the side on move for the neutral table; otherwise nothing
   * changes. SpendEffect states what it does.
   */
  function Spent(e: Engine, k: Kind): (r: Engine)
    requires ValidEngine(e) && IsTokenKind(k)
    ensures ValidEngine(r)
  {
    if e.selectedToken.None? then e
    else
      var mover := CurrentTokens(e);
      var mover' := mover[k := mover[k] - 1];
      var neutral' := e.neutralPool[k := e.neutralPool[k] + 1];
      if e.currentPlayer == White then e.(whitePieces := mover', neutralPool := neutral')
      else e.(blackPieces := mover', neutralPool := neutral')
  }

  /**
   * What a spend does: with no selected token nothing changes; with one,
   * the mover's count of `k` falls by one and the neutral count of `k` rises
   * by one. Their sum, the opponent's table, every other kind's counts, the
   * side on move and the selection never change.
   */
  lemma SpendEffect(e: Engine, k: Kind)
    requires ValidEngine(e) && IsTokenKind(k)
    ensures e.selectedToken.None? ==> Spent(e, k) == e
    ensures Spent(e, k).currentPlayer == e.currentPlayer
    ensures Spent(e, k).selectedPiece == e.selectedPiece && Spent(e, k).selectedToken == e.selectedToken
    ensures e.selectedToken.Some? ==>
              CurrentTokens(Spent(e, k))[k] == CurrentTokens(e)[k] - 1 &&
              Spent(e, k).neutralPool[k] == e.neutralPool[k] + 1
    ensures CurrentTokens(Spent(e, k))[k] + Spent(e, k).neutralPool[k] == CurrentTokens(e)[k] + e.neutralPool[k]
    ensures TokensOf(Spent(e, k), Opponent(e.currentPlayer)) == TokensOf(e, Opponent(e.currentPlayer))
    ensures forall j :: j != k && j in CurrentTokens(e) ==>
              CurrentTokens(Spent(e, k))[j] == CurrentTokens(e)[j] && Spent(e, k).neutralPool[j] == e.neutralPool[j]
  {
  }

  /** Spent written out case by case, for the proof of the method that implements it. */
  lemma SpentCases(e: Engine, k: Kind)
    requires ValidEngine(e) && IsTokenKind(k)
    ensures e.selectedToken.None? ==> Spent(e, k) == e
    ensures e.selectedToken.Some? && e.currentPlayer == White ==>
              Spent(e, k) == e.(whitePieces := e.whitePieces[k := e.whitePieces[k] - 1],
                                neutralPool := e.neutralPool[k := e.neutralPool[k] + 1])
    ensures e.selectedToken.Some? && e.currentPlayer == Black ==>
              Spent(e, k) == e.(blackPieces := e.blackPieces[k := e.blackPieces[k] - 1],
                                neutralPool := e.neutralPool[k := e.neutralPool[k] + 1])
  {
  }

  /** Moving one token of kind `k` from table `a` to table `n` keeps their combined count. */
  lemma MoveOneConserves(a: Table, n: Table, k: Kind)
    requires WellFormed(a) && WellFormed(n) && IsTokenKind(k)
    ensures WellFormed(a[k := a[k] - 1]) && WellFormed(n[k := n[k] + 1])
    ensures Count(a[k := a[k] - 1]) + Count(n[k := n[k] + 1]) == Count(a) + Count(n)
  {
    assert NoRepeats(TokenKinds);
    assert k in TokenKinds;
    SumUpdate(a, TokenKinds, k, -1);
    SumUpdate(n, TokenKinds, k, 1);
    assert a[k := a[k] + -1] == a[k := a[k] - 1];
  }

  /** Spending moves a token between tables and so never changes how many there are. */
  lemma SpendConservesTotal(e: Engine, k: Kind)
    requires ValidEngine(e) && IsTokenKind(k)
    ensures Total(Spent(e, k)) == Total(e)
  {
    if e.selectedToken.Some? {
      if e.currentPlayer == White {
        MoveOneConserves(e.whitePieces, e.neutralPool, k);
      } else {
        MoveOneConserves(e.blackPieces, e.neutralPool, k);
      }
    }
  }

  /** A spend that the gate allowed never leaves the side on move with a negative count. */
  lemma GatedSpendStaysNonNegative(e: Engine, k: Kind)
    requires ValidEngine(e) && IsTokenKind(k) && CanSpend(e, k)
    ensures CurrentTokens(Spent(e, k))[k] >= 0
  {
  }

  /** The spend itself does not check the gate: a count of zero becomes negative. */
  lemma UngatedSpendGoesNegative(e: Engine, k: Kind)
    requires ValidEngine(e) && IsTokenKind(k) && e.selectedToken.Some?
    requires CurrentTokens(e)[k] == 0
    ensures !CanSpend(e, k) && CurrentTokens(Spent(e, k))[k] == -1
  {
  }

  /** switchTurn: the other side is on move and nothing is selected; the tables stay. */
  function Switched(e: Engine): (r: Engine)
    ensures r.currentPlayer == Opponent(e.currentPlayer)
    ensures r.selectedPiece.None? && r.selectedToken.None?
    ensures r.whitePieces == e.whitePieces && r.blackPieces == e.blackPieces && r.neutralPool == e.neutralPool
  {
    Engine(Opponent(e.currentPlayer), None, None,
           e.whitePieces, e.blackPieces, e.neutralPool)
  }

  /** Switching twice gives the move back and only the selection is lost. */
  lemma SwitchTwice(e: Engine)
    ensures Switched(Switched(e)).currentPlayer == e.currentPlayer
    ensures Switched(Switched(e)) == e.(selectedPiece := None, selectedToken := None)
  {
  }

  /** The constructor's state: white on move, nothing selected, and the starting counts. */
  lemma InitialState()
    ensures ValidEngine(Initial)
    ensures Initial.currentPlayer == White && Initial.selectedPiece.None? && Initial.selectedToken.None?
    ensures Count(Initial.whitePieces) == Count(Initial.blackPieces) == 3
    ensures Count(Initial.neutralPool) == 4
    ensures Total(Initial) == 10
  {
  }

  /** The scene object; the source's `board`, selection, side on move and three count tables. */
  class GameScene {
    var board: array2<Option<Piece>>
    var selectedPiece: Option<Piece>
    var selectedToken: Option<Kind>
    var currentPlayer: Color
    var whitePieces: Table
    var blackPieces: Table
    var neutralPool: Table

    /** The scene's fields other than the board, as an Engine value. */
    function State(): Engine
      reads this
    {
      Engine(currentPlayer, selectedPiece, selectedToken, whitePieces, blackPieces, neutralPool)
    }

    ghost predicate Valid()
      reads this
    {
      ValidEngine(State()) && board.Length0 == 8 && board.Length1 == 8
    }

    /** An empty 8 by 8 board, white on move, nothing selected, the starting counts. */
    constructor ()
      ensures Valid() && fresh(board)
      ensures forall row, col :: 0 <= row < 8 && 0 <= col < 8 ==> board[row, col].None?
      ensures State() == Initial
    {
      board := new Option<Piece>[8, 8]((row, col) => None);
      selectedPiece := None;
      selectedToken := None;
      currentPlayer := White;
      whitePieces := map[Rook := 1, Knight := 1, Bishop := 1, Queen := 0];
      blackPieces := map[Rook := 1, Knight := 1, Bishop := 1, Queen := 0];
      neutralPool := map[Rook := 1, Knight := 1, Bishop := 1, Queen := 1];
    }

    /**
     * canSpendToken, read off the scene's current fields: pawns and kings
     * always pass; a token kind passes exactly when the table of the side
     * on move counts at least one of it.
     */
    predicate CanSpendToken(pieceType: Kind)
      reads this
      ensures pieceType == Pawn || pieceType == King ==> CanSpendToken(pieceType)
      ensures Valid() && IsTokenKind(pieceType) && currentPlayer == White ==>
                (CanSpendToken(pieceType) <==> whitePieces[pieceType] >= 1)
      ensures Valid() && IsTokenKind(pieceType) && currentPlayer == Black ==>
                (CanSpendToken(pieceType) <==> blackPieces[pieceType] >= 1)
    {
      CanSpend(State(), pieceType)
    }

    /** spendToken: the new state is Spent of the old one (SpendEffect, SpendConservesTotal say what that is). */
    method SpendToken(pieceType: Kind)
      requires Valid() && IsTokenKind(pieceType)
      modifies this
      ensures Valid() && board == old(board)
      ensures State() == Spent(old(State()), pieceType)
    {
      SpentCases(State(), pieceType);
      if selectedToken.Some? {
        if currentPlayer == White {
          whitePieces := whitePieces[pieceType := whitePieces[pieceType] - 1];
        } else {
          blackPieces := blackPieces[pieceType := blackPieces[pieceType] - 1];
        }
        neutralPool := neutralPool[pieceType := neutralPool[pieceType] + 1];
      }
    }

    /** switchTurn: the new state is Switched of the old one. */
    method SwitchTurn()
      requires Valid()
      modifies this
      ensures Valid() && board == old(board)
      ensures State() == Switched(old(State()))
    {
      currentPlayer := Opponent(currentPlayer);
      selectedPiece := None;
      selectedToken := None;
    }
  }
}
