/**
 * initializeGame of src/game/GameInitializer.js: it resets a scene to the
 * start of a game and gives it its own copies of the three starting token
 * lists of src/constants/tokens.js.
 */
module GameInitializer {
  import opened Wrappers
  import opened Enums
  import opened Tokens

  /** A token in a pool; the source's `{ type: ... }` object, whose kind a swap may relabel. */
  class Token {
    var kind: Kind

    constructor (kind: Kind)
      ensures this.kind == kind
    {
      this.kind := kind;
    }
  }

  /** A presentation object (sprite, highlight, text) the scene keeps a reference to. */
  datatype Handle = Handle(id: nat)

  /** The fields of a scene that initializeGame assigns. A pool is null until the game is set up. */
  class Scene {
    var selectedPiece: Option<Piece>
    var selectedToken: Token?
    var pieces: map<string, Handle>
    var selectionHighlight: Option<Handle>
    var turnIndicator: Option<Handle>
    var turnState: TurnState
    var lastMovedPiece: Option<Piece>
    var lastUsedToken: Token?
    var tokenRequiredTypes: set<Kind>
    var whiteTokens: array?<Token>
    var blackTokens: array?<Token>
    var neutralTokens: array?<Token>
  }

  /** Pool `a` holds, slot by slot, tokens of the kinds `kinds`. */
  ghost predicate Holds(a: array<Token>, kinds: seq<Kind>)
    reads a, a[..]
  {
    a.Length == |kinds| && forall i :: 0 <= i < a.Length ==> a[i].kind == kinds[i]
  }

  /** No token object sits in two slots of `a`. */
  ghost predicate Distinct(a: array<Token>)
    reads a
  {
    forall i, j :: 0 <= i < j < a.Length ==> a[i] != a[j]
  }

  /** No token object sits in both `a` and `b`. */
  ghost predicate Separate(a: array<Token>, b: array<Token>)
    reads a, b
  {
    forall i, j :: 0 <= i < a.Length && 0 <= j < b.Length ==> a[i] != b[j]
  }

  /** `STARTING_POOL.map(token => ({...token}))`: a new array of new tokens with the same kinds in the same order. */
  method CopyPool(pool: seq<Kind>) returns (copy: array<Token>)
    ensures fresh(copy) && Holds(copy, pool) && Distinct(copy)
    ensures forall i :: 0 <= i < copy.Length ==> fresh(copy[i])
  {
    var tokens: seq<Token> := [];
    var i := 0;
    while i < |pool|
      invariant 0 <= i <= |pool| && |tokens| == i
      invariant forall j :: 0 <= j < i ==> fresh(tokens[j]) && tokens[j].kind == pool[j]
      invariant forall j, l :: 0 <= j < l < i ==> tokens[j] != tokens[l]
    {
      var token := new Token(pool[i]);
      tokens := tokens + [token];
      i := i + 1;
    }
    copy := new Token[|tokens|](j requires 0 <= j < |tokens| => tokens[j]);
  }

  /**
   * The three pool copies of initializeGame: fresh arrays of fresh tokens,
   * no token in two slots or two pools, holding the starting lists in order.
   */
  method CopyStartingPools() returns (white: array<Token>, black: array<Token>, neutral: array<Token>)
    ensures fresh(white) && fresh(black) && fresh(neutral)
    ensures Holds(white, WhiteStartingPool) && Holds(black, BlackStartingPool) && Holds(neutral, NeutralStartingPool)
    ensures forall i :: 0 <= i < white.Length ==> fresh(white[i])
    ensures forall i :: 0 <= i < black.Length ==> fresh(black[i])
    ensures forall i :: 0 <= i < neutral.Length ==> fresh(neutral[i])
    ensures Distinct(white) && Distinct(black) && Distinct(neutral)
    ensures Separate(white, black) && Separate(white, neutral) && Separate(black, neutral)
  {
    white := CopyPool(WhiteStartingPool);
    black := CopyPool(BlackStartingPool);
    assert Separate(white, black);
    neutral := CopyPool(NeutralStartingPool);
  }

  /**
   * initializeGame: nothing selected or highlighted, no pieces, the
   * select-piece turn state, no required token kinds, and three fresh pools
   * whose tokens are new objects, shared by no two slots, holding the
   * starting kinds in order. Nothing here depends on the scene's earlier
   * state, so a second call leaves the scene as the first did.
   */
  method InitializeGame(scene: Scene)
    modifies scene
    ensures scene.selectedPiece.None? && scene.selectedToken == null
    ensures scene.pieces == map[] && scene.selectionHighlight.None? && scene.turnIndicator.None?
    ensures scene.turnState == SelectPiece
    ensures scene.lastMovedPiece.None? && scene.lastUsedToken == null
    ensures scene.tokenRequiredTypes == {}
    ensures scene.whiteTokens != null && scene.blackTokens != null && scene.neutralTokens != null
    ensures fresh(scene.whiteTokens) && fresh(scene.blackTokens) && fresh(scene.neutralTokens)
    ensures Holds(scene.whiteTokens, WhiteStartingPool)
    ensures Holds(scene.blackTokens, BlackStartingPool)
    ensures Holds(scene.neutralTokens, NeutralStartingPool)
    ensures forall i :: 0 <= i < scene.whiteTokens.Length ==> fresh(scene.whiteTokens[i])
    ensures forall i :: 0 <= i < scene.blackTokens.Length ==> fresh(scene.blackTokens[i])
    ensures forall i :: 0 <= i < scene.neutralTokens.Length ==> fresh(scene.neutralTokens[i])
    ensures Distinct(scene.whiteTokens) && Distinct(scene.blackTokens) && Distinct(scene.neutralTokens)
    ensures Separate(scene.whiteTokens, scene.blackTokens)
    ensures Separate(scene.whiteTokens, scene.neutralTokens)
    ensures Separate(scene.blackTokens, scene.neutralTokens)
  {
    scene.selectedPiece := None;
    scene.selectedToken := null;
    scene.pieces := map[];
    scene.selectionHighlight := None;
    scene.turnIndicator := None;
    scene.turnState := SelectPiece;
    scene.lastMovedPiece := None;
    scene.lastUsedToken := null;
    scene.tokenRequiredTypes := {};

    var white, black, neutral := CopyStartingPools();
    scene.whiteTokens := white;
    scene.blackTokens := black;
    scene.neutralTokens := neutral;
  }

  /**
   * A later change to one token of a fresh pool, as a swap would make it:
   * only that slot changes, and the other pools keep their starting kinds.
   */
  method RelabelAfterInitialize(scene: Scene, i: nat, kind: Kind)
    requires i < |WhiteStartingPool|
    modifies scene
    ensures scene.whiteTokens != null && scene.blackTokens != null && scene.neutralTokens != null
    ensures Holds(scene.whiteTokens, WhiteStartingPool[i := kind])
    ensures Holds(scene.blackTokens, BlackStartingPool)
    ensures Holds(scene.neutralTokens, NeutralStartingPool)
  {
    InitializeGame(scene);
    scene.whiteTokens[i].kind := kind;
  }

  /**
   * The pool-rendering lookup `PIECE_SYMBOLS[token.type]` finds a glyph for
   * every kind of every starting pool and every kind PIECE_TO_TOKEN_MAP
   * yields, and distinct kinds are drawn with distinct glyphs.
   */
  lemma PoolGlyphsDefined(pool: seq<Kind>, i: nat, letter: char)
    requires pool == WhiteStartingPool || pool == BlackStartingPool || pool == NeutralStartingPool
    requires i < |pool|
    ensures IsWhiteGlyph(PieceSymbol(pool[i]))
    ensures PieceToToken(letter).Some? ==> IsWhiteGlyph(PieceSymbol(PieceToToken(letter).value))
    ensures forall j :: 0 <= j < |pool| && pool[j] != pool[i] ==> PieceSymbol(pool[j]) != PieceSymbol(pool[i])
  {
  }
}
