# Token chess: the token economy

A two-player chess variant in which rooks, knights, bishops and queens may
move only when their side holds a token of that kind. This project models the
token economy as the JavaScript code implements it. The code holds two
separate designs, and they are modelled separately:

- **The count-based turn engine** of `src/scenes/GameScene.js` (module
  `GameScene`). A scene holds the side on move, a selected piece and token,
  an 8 by 8 board, and three count tables that give, per token kind, how
  many tokens white, black and the neutral bank hold. `canSpendToken` is the
  gate that lets a kind move. `spendToken` moves one token of a kind from the
  mover's table to the neutral table. `switchTurn` passes the move and
  clears the selection. The class `GameScene.GameScene` has these fields,
  and its methods are proved against pure functions on an `Engine` value
  (`Spent`, `Switched`, `CanSpend`). The lemmas about those functions
  state conservation, what each operation leaves alone, and the gate.
- **The list-based initialiser** of `src/game/GameInitializer.js` (module
  `GameInitializer`). `InitializeGame` resets a scene to the select-piece
  turn state with nothing selected. It also gives the scene three new
  arrays of new `Token` objects that copy the starting lists of
  `src/constants/tokens.js` (module `Tokens`).
- **The closed vocabularies** of `src/constants/enums.js` (module `Enums`):
  the six kinds, the two turn states and the two glyph tables. The tables
  are total functions over `Kind`.

Another design for this game is also possible: ordered token pools, a
mandatory swap with the neutral pool after every token-gated move, and a
two-state turn machine driving selection and swap. The code implements less
than that, and the model follows the code:

- `GameScene.js` keeps counts and moves a spent token to the neutral table.
  There is no swap, no turn machine and no move mediator: the tile and
  token click handlers and `isValidMove` are empty, and nothing reads
  `turnState`; nothing changes it after `initializeGame` sets it. So none
  of them is modelled.
- One could derive the token-gated kinds as the union of the kinds in the
  three pools. `initializeGame` sets `tokenRequiredTypes` to the empty set,
  and the model does the same.
- The unit tests (tests/unit/scenes/GameScene.test.js:58-75) expect three
  tokens per side with `used` flags and a neutral pool of rook, rook,
  queen. In `tokens.js` white and black each start with rook, knight,
  bishop and queen, and the neutral pool holds knight and bishop. The model
  follows `tokens.js`.
- The two designs do not agree with each other. The count tables start
  with no queen for either side and one of every kind in the neutral
  table. The starting lists give each side a queen and the neutral pool no
  rook and no queen. Each design is modelled as written.

Representation choices:

- Kinds, sides and turn states are strings in the source. Here they are
  datatypes.
- `selectedToken` of the count engine is tested only for truthiness, so it
  is an `Option`.
- The count tables are `map<Kind, int>` with an entry for each of the four
  token kinds. Counts are unbounded integers and may go negative, as in the
  source.
- The presentation objects the initialiser clears (the selection highlight,
  the turn indicator, the sprites in `pieces`) are opaque `Handle` values.
  Only whether they are present is modelled.

## Model

| member | source | states |
|---|---|---|
| `Enums.Opponent` | src/scenes/GameScene.js:120 | the other side is never the side itself |
| `Enums.TurnStatesExactlyTwo` | src/constants/enums.js:2-5 | every turn state is SELECT_PIECE or SELECT_NEUTRAL_TOKEN, the two differ, and so do their string values |
| `Enums.PieceSymbol` | src/constants/enums.js:18-25 | every kind has a PIECE_SYMBOLS glyph, and it is one of the six white chess glyphs (IsWhiteGlyph) |
| `Enums.TokenSymbol` | src/constants/enums.js:8-15 | every kind has a TOKEN_SYMBOLS glyph, and it is the black chess glyph of the same piece whose white glyph PIECE_SYMBOLS holds |
| `Enums.PieceSymbolsDistinct` | src/constants/enums.js:18-25 | distinct kinds have distinct PIECE_SYMBOLS glyphs |
| `Enums.TokenSymbolsDistinct` | src/constants/enums.js:8-15 | distinct kinds have distinct TOKEN_SYMBOLS glyphs |
| `Enums.SymbolTablesDisjoint` | src/constants/enums.js:8-25 | no token glyph is also a piece glyph |
| `Tokens.StartingPools` | src/constants/tokens.js:2-19 | white and black start with four tokens of kinds rook, knight, bishop, queen, and neutral with two of kinds knight, bishop; no pool repeats a kind; no pool holds a pawn or a king; together they hold exactly rook, knight, bishop and queen |
| `Tokens.PieceToToken` | src/constants/tokens.js:22-29 | PIECE_TO_TOKEN_MAP has an entry exactly for the letters p, r, n, b, q, k, and each entry is the kind whose letter it is |
| `Tokens.PieceToTokenCoversKinds` | src/constants/tokens.js:22-29 | every one of the six kinds is the entry of its own letter |
| `Tokens.PieceToTokenInjective` | src/constants/tokens.js:22-29 | two letters with the same entry are the same letter |
| `GameScene.CanSpend` | src/scenes/GameScene.js:105-108 | pawns and kings may always move; any other kind may move exactly when the side on move holds at least one token of it |
| `GameScene.CanSpendReadsOnlyMover` | src/scenes/GameScene.js:105-107 | the gate depends only on the side on move and that side's table, not on the opponent's table, the neutral table or the selection |
| `GameScene.GameScene.CanSpendToken` | src/scenes/GameScene.js:105-108 | the gate read off the scene: pawns and kings always pass; a token kind passes exactly when the table of the side on move (white's when white is on move, black's otherwise) counts at least one; it is CanSpend of State(), reads the scene and changes nothing |
| `GameScene.Spent` | src/scenes/GameScene.js:110-117 | a spend keeps every table's entries exactly the four token kinds |
| `GameScene.SpendEffect` | src/scenes/GameScene.js:110-117 | with no selected token nothing changes; with one, the mover's count of the kind falls by one and the neutral count rises by one, their sum is unchanged, and the opponent's table, other kinds' counts, the side on move and the selection are unchanged |
| `GameScene.MoveOneConserves` | src/scenes/GameScene.js:113-114 | taking a token of a kind from one table and adding it to another keeps the two tables' combined count |
| `GameScene.SpendConservesTotal` | src/scenes/GameScene.js:110-117 | spending never changes the number of tokens across all three tables |
| `GameScene.GatedSpendStaysNonNegative` | src/scenes/GameScene.js:105-114 | if the gate let the kind through, the mover's count of it is not negative after the spend |
| `GameScene.UngatedSpendGoesNegative` | src/scenes/GameScene.js:110-114 | the spend does not check the gate: a selected token of a kind the mover has none of leaves a count of minus one |
| `GameScene.Switched` | src/scenes/GameScene.js:119-123 | the other side is on move, nothing is selected, and all three tables are unchanged |
| `GameScene.SwitchTwice` | src/scenes/GameScene.js:119-123 | switching twice gives the move back to the same side, and only the selection differs from the start |
| `GameScene.InitialState` | src/scenes/GameScene.js:7-29 | the starting state has white on move, nothing selected, three tokens for each side, four neutral tokens and ten in all |
| `GameScene.GameScene.constructor` | src/scenes/GameScene.js:2-30 | a fresh 8 by 8 board whose every cell is empty; white on move; nothing selected; white and black hold rook 1, knight 1, bishop 1, queen 0; neutral holds one of each |
| `GameScene.GameScene.SpendToken` | src/scenes/GameScene.js:110-117 | the new state is Spent of the old one, the tables keep their four entries, and the board is untouched |
| `GameScene.GameScene.SwitchTurn` | src/scenes/GameScene.js:119-123 | the new state is Switched of the old one and the board is untouched |
| `GameInitializer.CopyPool` | src/game/GameInitializer.js:21-23 | a new array of new, pairwise distinct tokens holding the given kinds in the given order |
| `GameInitializer.CopyStartingPools` | src/game/GameInitializer.js:20-23 | three fresh arrays of fresh tokens holding the white, black and neutral starting lists in order, with no token in two slots or in two pools |
| `GameInitializer.InitializeGame` | src/game/GameInitializer.js:7-24 | turn state SELECT_PIECE; selected piece and token, last moved piece, last used token, highlight and turn indicator absent; no pieces; no required kinds; three fresh pools of fresh tokens, no token in two slots, holding the starting lists in order; nothing depends on the earlier state, so a second call gives what the first gave |
| `GameInitializer.RelabelAfterInitialize` | src/game/GameInitializer.js:20-23 | after initialising, relabelling one white token changes that slot only: the other pools still hold their starting kinds and the starting lists are values no change can reach |
| `GameInitializer.PoolGlyphsDefined` | src/game/GameInitializer.js:69 | the glyph lookup used to draw a pool finds a white chess glyph for every kind of every starting pool and every kind PIECE_TO_TOKEN_MAP yields, and distinct kinds in a pool get distinct glyphs |

## Left out

- The rules engine (`new Chess()` in `initializeGame`): move legality, check and checkmate belong to a library whose source is not part of this model.
- `preload`, `create`, `createBoard`, `createPieces`, `createTokens`, `createUI` and `updateTokenDisplay` of `GameScene.js`, and `createLayout`, `createTokenPools` and `createTurnIndicator` of `GameInitializer.js`: asset loading, drawing and layout, which uses floating-point division. `spendToken`'s call of `updateTokenDisplay` has an empty body and is left out.
- `handleTileClick`, `handleTokenClick` and `isValidMove`: their bodies are empty, so there is no selection, swap or turn-state flow to model.
- `TitleScene.js`, `main.js` and the build configuration: presentation and tooling.
- `GameScene.GameScene.SpendToken`: requires a token kind, because for a pawn or a king the source decrements a missing table entry and gets NaN.
- The unit test file: its pools, its neutral pool and the helpers it calls do not match the code, and its movement tests exercise only the rules engine.
