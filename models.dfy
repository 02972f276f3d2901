/**
 * The shared game objects (internal/shared/models/models.go): tokens,
 * players, the room record and the board, with the constructors that
 * establish the initial state the engine relies on.
 */
module Models {
  import opened Constants

  /** A pawn. Position -1 is the base, 0..51 the shared ring, 52..57 the owner's home stretch. */
  class Token {
    const id: int
    const color: Color
    var position: int
    var isHome: bool
    var isSafe: bool

    constructor (id: int, color: Color)
      ensures this.id == id && this.color == color
      ensures position == -1 && !isHome && isSafe
    {
      this.id := id;
      this.color := color;
      position := -1;
      isHome := false;
      isSafe := true;
    }
  }

  class Player {
    const id: int
    const username: string
    const color: Color
    const tokens: seq<Token>
    var tokensAtHome: int
    var isAI: bool
    var aiLevel: string
    var isReady: bool
    var isConnected: bool
    var consecutiveSix: int

    constructor (id: int, username: string, color: Color, tokens: seq<Token>)
      ensures this.id == id && this.username == username && this.color == color
      ensures this.tokens == tokens
      ensures tokensAtHome == 0 && !isAI && aiLevel == "" && !isReady && isConnected
      ensures consecutiveSix == 0
    {
      this.id := id;
      this.username := username;
      this.color := color;
      this.tokens := tokens;
      tokensAtHome := 0;
      isAI := false;
      aiLevel := "";
      isReady := false;
      isConnected := true;
      consecutiveSix := 0;
    }
  }

  /** The room record shared by the room wrapper and its engine (`models.Room`). */
  class RoomModel {
    const id: string
    const name: string
    var hostId: int
    var players: seq<Player>
    const maxPlayers: int
    const gameMode: string
    var state: GameState
    var currentTurn: int
    var lastDice: int
    const isPrivate: bool

    constructor (id: string, name: string, hostId: int, maxPlayers: int, gameMode: string, isPrivate: bool)
      ensures this.id == id && this.name == name && this.hostId == hostId
      ensures this.maxPlayers == maxPlayers && this.gameMode == gameMode && this.isPrivate == isPrivate
      ensures players == [] && state == Waiting && currentTurn == 0 && lastDice == 0
    {
      this.id := id;
      this.name := name;
      this.hostId := hostId;
      players := [];
      this.maxPlayers := maxPlayers;
      this.gameMode := gameMode;
      state := Waiting;
      currentTurn := 0;
      lastDice := 0;
      this.isPrivate := isPrivate;
    }
  }

  /**
   * The board. Cell i of the ring is flattened into `cells[i]` (the token the
   * cell references, or null) and `safe[i]` (its safe marking); its position is
   * the index i. Row `ColorIndex(c)` of `stretches` is colour c's home stretch,
   * whose cell k has position 52 + k and is always safe.
   */
  class Board {
    const cells: array<Token?>
    const safe: array<bool>
    const stretches: array2<Token?>

    constructor (cells: array<Token?>, safe: array<bool>, stretches: array2<Token?>)
      ensures this.cells == cells && this.safe == safe && this.stretches == stretches
    {
      this.cells := cells;
      this.safe := safe;
      this.stretches := stretches;
    }

    /** Tokens referenced from the ring. */
    ghost function CellTokens(): set<object>
      reads cells
    {
      set i | 0 <= i < cells.Length && cells[i] != null :: cells[i]
    }

    /** Tokens referenced from the home stretches. */
    ghost function StretchTokens(): set<object>
      reads stretches
    {
      set r, k | 0 <= r < stretches.Length0 && 0 <= k < stretches.Length1 && stretches[r, k] != null :: stretches[r, k]
    }

    /** 52 ring cells and a 6-cell stretch per colour. */
    predicate Shaped()
    {
      && cells.Length == TotalCells
      && safe.Length == TotalCells
      && stretches.Length0 == |Colors|
      && stretches.Length1 == HomeCells
    }

    /**
     * Shape of the board, plus the link between cells and the tokens they
     * reference: a referenced token's position is the cell's position, and a
     * stretch only references tokens of its own colour.
     */
    ghost predicate Valid()
      reads cells, safe, stretches, CellTokens(), StretchTokens()
    {
      && Shaped()
      && (forall i :: 0 <= i < TotalCells ==> safe[i] == (i in SafePositions))
      && (forall i :: 0 <= i < TotalCells && cells[i] != null ==> cells[i].position == i)
      && (forall r, k :: 0 <= r < |Colors| && 0 <= k < HomeCells && stretches[r, k] != null ==>
            stretches[r, k].position == TotalCells + k && stretches[r, k].color == Colors[r])
    }

    ghost predicate Empty()
      reads cells, stretches
    {
      && (forall i :: 0 <= i < cells.Length ==> cells[i] == null)
      && (forall r, k :: 0 <= r < stretches.Length0 && 0 <= k < stretches.Length1 ==> stretches[r, k] == null)
    }
  }

  /** One resolved move in the turn history (`TurnAction`, timestamp left out). */
  datatype TurnAction = TurnAction(playerId: int, diceValue: int, tokenMoved: Token, fromPos: int, toPos: int, captured: Token?)

  /**
   * What the engine assumes of a player's tokens: four of them, numbered
   * 0..3, in the player's colour, none home, every position in {-1} and
   * 0..57 (and on the ring for the colourless player, who has no home
   * stretch).
   */
  ghost predicate TokensWellFormed(p: Player)
    reads p.tokens
  {
    && |p.tokens| == TokensPerPlayer
    && forall k :: 0 <= k < |p.tokens| ==>
         && p.tokens[k].id == k
         && p.tokens[k].color == p.color
         && -1 <= p.tokens[k].position <= LastPosition
         && (p.color == NoColor ==> p.tokens[k].position < TotalCells)
         && !p.tokens[k].isHome
  }

  /** What the engine assumes of a seated player: well-formed tokens and fewer than three sixes in a row. */
  ghost predicate PlayerWellFormed(p: Player)
    reads p, p.tokens
  {
    TokensWellFormed(p) && 0 <= p.consecutiveSix < MaxConsecutiveSix
  }

  /** Linear search of `slice` for `val`. */
  method Contains(slice: seq<int>, val: int) returns (found: bool)
    ensures found <==> val in slice
  {
    var i := 0;
    while i < |slice|
      invariant 0 <= i <= |slice|
      invariant val !in slice[..i]
    {
      if slice[i] == val {
        return true;
      }
      i := i + 1;
    }
    assert slice[..i] == slice;
    return false;
  }

  /** A human player with four fresh tokens in base. */
  method NewPlayer(id: int, username: string, color: Color) returns (p: Player)
    ensures fresh(p) && fresh(set k | 0 <= k < |p.tokens| :: p.tokens[k])
    ensures p.id == id && p.username == username && p.color == color
    ensures |p.tokens| == TokensPerPlayer
    ensures forall k :: 0 <= k < |p.tokens| ==>
              && p.tokens[k].id == k && p.tokens[k].color == color
              && p.tokens[k].position == -1 && !p.tokens[k].isHome && p.tokens[k].isSafe
    ensures forall j, k :: 0 <= j < k < |p.tokens| ==> p.tokens[j] != p.tokens[k]
    ensures p.tokensAtHome == 0 && p.consecutiveSix == 0
    ensures !p.isAI && !p.isReady && p.isConnected && p.aiLevel == ""
    ensures PlayerWellFormed(p)
  {
    var tokens: seq<Token> := [];
    var i := 0;
    while i < TokensPerPlayer
      invariant 0 <= i <= TokensPerPlayer && |tokens| == i
      invariant forall k :: 0 <= k < i ==> fresh(tokens[k])
      invariant forall k :: 0 <= k < i ==>
                  tokens[k].id == k && tokens[k].color == color
                  && tokens[k].position == -1 && !tokens[k].isHome && tokens[k].isSafe
      invariant forall j, k :: 0 <= j < k < i ==> tokens[j] != tokens[k]
    {
      var t := new Token(i, color);
      tokens := tokens + [t];
      i := i + 1;
    }
    p := new Player(id, username, color, tokens);
  }

  /** A computer player: seated with id 0, ready, at the given difficulty. */
  method NewAIPlayer(color: Color, level: string) returns (p: Player)
    ensures fresh(p) && fresh(set k | 0 <= k < |p.tokens| :: p.tokens[k])
    ensures p.id == 0 && p.username == "AI Player" && p.color == color
    ensures p.isAI && p.aiLevel == level && p.isReady && p.isConnected
    ensures |p.tokens| == TokensPerPlayer
    ensures forall k :: 0 <= k < |p.tokens| ==>
              && p.tokens[k].id == k && p.tokens[k].color == color
              && p.tokens[k].position == -1 && !p.tokens[k].isHome && p.tokens[k].isSafe
    ensures p.tokensAtHome == 0 && p.consecutiveSix == 0
    ensures PlayerWellFormed(p)
  {
    p := NewPlayer(0, "AI Player", color);
    p.isAI := true;
    p.aiLevel := level;
    p.isReady := true;
  }

  /** An empty board: 52 ring cells marked safe per `SafePositions`, and four empty 6-cell stretches. */
  method NewBoard() returns (b: Board)
    ensures fresh(b) && fresh(b.cells) && fresh(b.safe) && fresh(b.stretches)
    ensures b.Valid() && b.Empty()
  {
    var cells := new Token?[TotalCells];
    var safe := new bool[TotalCells];
    var i := 0;
    while i < TotalCells
      modifies cells, safe
      invariant 0 <= i <= TotalCells
      invariant forall j :: 0 <= j < i ==> cells[j] == null && safe[j] == (j in SafePositions)
    {
      cells[i] := null;
      safe[i] := Contains(SafePositions, i);
      i := i + 1;
    }
    var stretches := new Token?[|Colors|, HomeCells];
    var r := 0;
    while r < |Colors|
      modifies stretches
      invariant 0 <= r <= |Colors|
      invariant forall r', k :: 0 <= r' < r && 0 <= k < HomeCells ==> stretches[r', k] == null
    {
      var k := 0;
      while k < HomeCells
        modifies stretches
        invariant 0 <= k <= HomeCells
        invariant forall r', k' :: 0 <= r' < r && 0 <= k' < HomeCells ==> stretches[r', k'] == null
        invariant forall k' :: 0 <= k' < k ==> stretches[r, k'] == null
      {
        stretches[r, k] := null;
        k := k + 1;
      }
      r := r + 1;
    }
    b := new Board(cells, safe, stretches);
  }
}
