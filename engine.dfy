/**
 * The per-room turn state machine (internal/server/game/engine.go): the
 * rigged die, the three-sixes forfeit, move legality and destination
 * arithmetic, in-place board updates, capture, the win check, turn rotation
 * and the end-of-game rankings.
 *
 * Each public method is one atomic step (the engine's mutex only serialises
 * them). The random seat and the non-rigged die face are inputs, and the
 * callbacks are appended to a ghost event log.
 */
module Game {
  import opened Wrappers
  import opened Constants
  import opened Models

  datatype EngineError = NotYourTurn | InvalidTokenId | InvalidMove | AlreadyStarted | NotEnoughPlayers

  /** One callback invocation (`EngineCallbacks`). */
  datatype Event =
    | DiceRolled(playerId: int, value: int, extraTurn: bool)
    | TokenMoved(playerId: int, token: Token, from: int, to: int)
    | TokenCaptured(capturer: int, victim: int, token: Token, pos: int)
    | TurnChanged(playerId: int)
    | GameOver(winner: Player, rankings: seq<Player>)

  /** Destination of a token at `pos` moved by `dice` (`calculateNewPosition`). */
  function CalculateNewPosition(pos: int, dice: int, color: Color): (r: int)
    ensures -1 <= pos <= LastPosition && 0 <= dice <= DiceMax && (color == NoColor ==> pos < TotalCells) ==>
              0 <= r <= LastPosition + DiceMax && (color == NoColor ==> r < TotalCells)
  {
    if pos == -1 then StartingPosition(color)
    else
      var newPos := pos + dice;
      var homeEntry := HomeStretchStart(color);
      if pos < homeEntry && newPos >= homeEntry then TotalCells + (newPos - homeEntry)
      else if newPos >= TotalCells && pos < TotalCells then newPos % TotalCells
      else newPos
  }

  lemma CalculateNewPositionRange(pos: int, dice: int, color: Color)
    requires -1 <= pos <= LastPosition && 0 <= dice <= DiceMax
    requires color == NoColor ==> pos < TotalCells
    ensures var r := CalculateNewPosition(pos, dice, color);
      && 0 <= r <= LastPosition + DiceMax
      && (color == NoColor ==> r < TotalCells)
      && (pos >= TotalCells ==> r == pos + dice)
  {
  }

  /** Ring cells a token travels before it turns into its home stretch. */
  const PathRingCells: int := 50

  /** Steps a token of colour c at `pos` has travelled from its starting cell. */
  function Progress(c: Color, pos: int): int
  {
    if pos >= TotalCells then PathRingCells + (pos - TotalCells)
    else (pos - StartingPosition(c) + TotalCells) % TotalCells
  }

  /** The cell r steps along colour c's path: 50 ring cells from its start, then its stretch. */
  function PathCell(c: Color, r: int): int
  {
    if r < PathRingCells then (StartingPosition(c) + r) % TotalCells
    else TotalCells + (r - PathRingCells)
  }

  /** A cell colour c's tokens can stand on: the first 50 ring cells of its path, or its stretch. */
  predicate OnPath(c: Color, pos: int)
  {
    || (0 <= pos < TotalCells && Progress(c, pos) < PathRingCells)
    || TotalCells <= pos <= LastPosition
  }

  /** Progress counts steps along the path: the path cell at a ring cell's progress is that cell. */
  lemma {:induction false} RingProgressInverse(pos: int, c: Color)
    requires c != NoColor && 0 <= pos < TotalCells
    ensures 0 <= Progress(c, pos) < TotalCells
    ensures (StartingPosition(c) + Progress(c, pos)) % TotalCells == pos
    ensures Progress(c, pos) == match c
      case Red => pos
      case Blue => if pos >= 13 then pos - 13 else pos + 39
      case Green => if pos >= 26 then pos - 26 else pos + 26
      case _ => if pos >= 39 then pos - 39 else pos + 13
  {
    match c
    case Red =>
    case Blue =>
      assert Progress(c, pos) == (if pos >= 13 then pos - 13 else pos + 39);
    case Green =>
      assert Progress(c, pos) == (if pos >= 26 then pos - 26 else pos + 26);
    case Yellow =>
      assert Progress(c, pos) == (if pos >= 39 then pos - 39 else pos + 13);
  }

  /**
   * The destination arithmetic walks the colour's path: leaving base lands on
   * the path's first cell, and a move of d from a path cell lands d steps
   * further along it.
   */
  lemma {:induction false} DestinationFollowsPath(pos: int, dice: int, c: Color)
    requires c != NoColor && 0 <= dice <= DiceMax
    requires pos == -1 || OnPath(c, pos)
    ensures pos == -1 ==> CalculateNewPosition(pos, dice, c) == PathCell(c, 0)
    ensures pos != -1 ==> PathCell(c, Progress(c, pos)) == pos
    ensures pos != -1 ==> CalculateNewPosition(pos, dice, c) == PathCell(c, Progress(c, pos) + dice)
  {
    if pos != -1 && pos < TotalCells {
      RingProgressInverse(pos, c);
      HomeStretchStartPrecedesStart(c);
    }
  }

  /** The n-th roll of a player: a 6 on the first and on every fifth roll, otherwise the drawn face. */
  function RiggedDice(rollNumber: int, draw: int): (v: int)
    requires rollNumber >= 1 && 0 <= draw < DiceMax
    ensures DiceMin <= v <= DiceMax
    ensures rollNumber == 1 || rollNumber % 5 == 0 ==> v == RollForExtraTurn
  {
    if rollNumber == 1 || rollNumber % 5 == 0 then RollForExtraTurn else draw + DiceMin
  }

  /** The seat after `turn` at a table of n: `(turn + 1) % n`. */
  function NextSeat(turn: int, n: int): (next: int)
    requires 0 <= turn && 0 < n
    ensures 0 <= next < n
    ensures turn < n ==> next == if turn + 1 == n then 0 else turn + 1
  {
    (turn + 1) % n
  }

  /** The players other than those with id `id`, in seat order. */
  function Others(ps: seq<Player>, id: int): seq<Player>
  {
    if ps == [] then []
    else Others(ps[..|ps| - 1], id) + (if ps[|ps| - 1].id != id then [ps[|ps| - 1]] else [])
  }

  lemma {:induction false} OthersExactly(ps: seq<Player>, id: int)
    ensures forall p :: p in Others(ps, id) <==> p in ps && p.id != id
    ensures |Others(ps, id)| <= |ps|
  {
    if ps != [] {
      OthersExactly(ps[..|ps| - 1], id);
      assert ps == ps[..|ps| - 1] + [ps[|ps| - 1]];
    }
  }

  class Engine {
    const room: RoomModel
    const board: Board
    /** Rolls made so far, per player id; a missing id has rolled 0 times. */
    var rollCount: map<int, int>
    var history: seq<TurnAction>
    var winner: Player?
    var rankings: seq<Player>
    ghost var events: seq<Event>

    /** `NewEngine`: a fresh empty board and a zero roll count for every seated id. */
    constructor (room: RoomModel)
      ensures this.room == room
      ensures fresh(board) && fresh(board.cells) && fresh(board.safe) && fresh(board.stretches)
      ensures board.Valid() && board.Empty()
      ensures rollCount.Keys == set i | 0 <= i < |room.players| :: room.players[i].id
      ensures forall id :: id in rollCount ==> rollCount[id] == 0
      ensures history == [] && winner == null && rankings == [] && events == []
      ensures Valid() <==>
                (forall i :: 0 <= i < |room.players| ==> TokensWellFormed(room.players[i])) && 0 <= room.lastDice <= DiceMax
    {
      var b := NewBoard();
      var counts: map<int, int> := map[];
      var i := 0;
      while i < |room.players|
        invariant 0 <= i <= |room.players|
        invariant counts.Keys == set j | 0 <= j < i :: room.players[j].id
        invariant forall id :: id in counts ==> counts[id] == 0
      {
        assert (set j | 0 <= j < i + 1 :: room.players[j].id) == (set j | 0 <= j < i :: room.players[j].id) + {room.players[i].id};
        counts := counts[room.players[i].id := 0];
        i := i + 1;
      }
      this.room := room;
      board := b;
      rollCount := counts;
      history := [];
      winner := null;
      rankings := [];
      events := [];
    }

    /** A seat is designated: Go would panic indexing `Players[CurrentTurn]` otherwise. */
    predicate Seated()
      reads room`players, room`currentTurn
    {
      |room.players| > 0 && 0 <= room.currentTurn < |room.players|
    }

    function Current(): Player
      reads room`players, room`currentTurn
      requires Seated()
    {
      room.players[room.currentTurn]
    }

    ghost function PlayerTokens(): set<object>
      reads room`players
    {
      set i, k | 0 <= i < |room.players| && 0 <= k < |room.players[i].tokens| :: room.players[i].tokens[k]
    }

    /** The board is consistent, the last die is 0 (never rolled) or a face, and every seated player is well formed. */
    ghost predicate Valid()
      reads this`rollCount, room`lastDice, room`players, PlayerTokens()
      reads board.cells, board.safe, board.stretches, board.CellTokens(), board.StretchTokens()
    {
      && board.Valid()
      && 0 <= room.lastDice <= DiceMax
      && (forall id :: id in rollCount ==> rollCount[id] >= 0)
      && (forall i :: 0 <= i < |room.players| ==> TokensWellFormed(room.players[i]))
    }

    /** Go's `rollCount[id]`: zero for an id never counted. */
    function Rolls(id: int): (n: int)
      reads this`rollCount
      ensures id in rollCount ==> n == rollCount[id]
      ensures id !in rollCount ==> n == 0
    {
      if id in rollCount then rollCount[id] else 0
    }

    /** Whether token t of a player of colour `color` may move by `dice` (`canMoveToken`). */
    predicate CanMoveToken(t: Token, dice: int, color: Color): (ok: bool)
      reads t, board.cells, board.stretches
      requires board.Shaped()
      requires -1 <= t.position <= LastPosition && (color == NoColor ==> t.position < TotalCells)
      requires 0 <= dice <= DiceMax
      ensures ok ==> !t.isHome && CalculateNewPosition(t.position, dice, color) <= LastPosition
      ensures ok && t.position == -1 ==> dice == RollToStart
      ensures ok && t.position >= TotalCells ==> t.position + dice <= LastPosition
    {
      if t.isHome then false
      else if t.position == -1 && dice != RollToStart then false
      else
        var newPos := CalculateNewPosition(t.position, dice, color);
        CalculateNewPositionRange(t.position, dice, color);
        if newPos > LastPosition then false
        else if newPos >= TotalCells then board.stretches[ColorIndex(color), newPos - TotalCells] == null
        else board.cells[newPos] == null || board.cells[newPos].color != color
    }

    /** Some token of p may move by `dice`. */
    ghost predicate Movable(p: Player, dice: int)
      reads p.tokens, board.cells, board.stretches
      requires board.Shaped() && TokensWellFormed(p) && 0 <= dice <= DiceMax
    {
      exists k :: 0 <= k < |p.tokens| && CanMoveToken(p.tokens[k], dice, p.color)
    }

    method HasValidMove(p: Player, dice: int) returns (can: bool)
      requires board.Shaped() && TokensWellFormed(p) && 0 <= dice <= DiceMax
      ensures can <==> Movable(p, dice)
    {
      var k := 0;
      while k < |p.tokens|
        invariant 0 <= k <= |p.tokens|
        invariant forall j :: 0 <= j < k ==> !CanMoveToken(p.tokens[j], dice, p.color)
      {
        if CanMoveToken(p.tokens[k], dice, p.color) {
          return true;
        }
        k := k + 1;
      }
      return false;
    }

    /** `Start`: refuses a started game or fewer than two players, otherwise seats someone and plays. */
    method Start() returns (err: Option<EngineError>)
      modifies room`currentTurn, room`state, this`events
      ensures old(Valid()) ==> Valid()
      ensures err.None? <==> old(room.state) == Waiting && |room.players| >= MinPlayers
      ensures old(room.state) != Waiting ==> err == Some(AlreadyStarted)
      ensures old(room.state) == Waiting && |room.players| < MinPlayers ==> err == Some(NotEnoughPlayers)
      ensures err.Some? ==> unchanged(room) && events == old(events)
      ensures err.None? ==> room.state == Playing && Seated() && events == old(events) + [TurnChanged(Current().id)]
    {
      if room.state != Waiting {
        return Some(AlreadyStarted);
      }
      if |room.players| < MinPlayers {
        return Some(NotEnoughPlayers);
      }
      var seat :| 0 <= seat < |room.players|;
      room.currentTurn := seat;
      room.state := Playing;
      events := events + [TurnChanged(room.players[seat].id)];
      return None;
    }

    /** Reports one event. */
    method Emit(e: Event)
      modifies this`events
      ensures events == old(events) + [e]
    {
      events := events + [e];
    }

    /**
     * `nextTurn`: the next seat, cyclically. The index is wrapped before the
     * seat is read, so a stale index past the last seat is brought back in range.
     */
    method NextTurn()
      requires |room.players| > 0 && 0 <= room.currentTurn
      modifies room`currentTurn, this`events
      ensures Seated()
      ensures room.currentTurn == NextSeat(old(room.currentTurn), |room.players|)
      ensures events == old(events) + [TurnChanged(Current().id)]
    {
      room.currentTurn := NextSeat(room.currentTurn, |room.players|);
      events := events + [TurnChanged(room.players[room.currentTurn].id)];
    }

    /** The turn timer's callback: it advances only if the player it was armed for still holds the turn. */
    method TurnTimeout(armedFor: int)
      requires Seated()
      modifies room`currentTurn, this`events
      ensures Seated()
      ensures old(Current().id) == armedFor ==>
                room.currentTurn == NextSeat(old(room.currentTurn), |room.players|)
                && events == old(events) + [TurnChanged(Current().id)]
      ensures old(Current().id) != armedFor ==> unchanged(room) && events == old(events)
    {
      if room.players[room.currentTurn].id == armedFor {
        NextTurn();
      }
    }

    /** The counting half of `RollDice`: one more roll for `playerId`, whose face becomes the last die. */
    method RecordRoll(playerId: int, draw: int) returns (value: int)
      requires Valid() && 0 <= draw < DiceMax
      modifies this`rollCount, room`lastDice
      ensures Valid()
      ensures rollCount == old(rollCount)[playerId := old(Rolls(playerId)) + 1]
      ensures value == RiggedDice(old(Rolls(playerId)) + 1, draw) && room.lastDice == value
    {
      var rollNumber := Rolls(playerId) + 1;
      rollCount := rollCount[playerId := rollNumber];
      value := RiggedDice(rollNumber, draw);
      room.lastDice := value;
    }

    /**
     * The rule half of `RollDice` for the current player p, who rolled `value`:
     * the third six in a row forfeits the turn; any other six grants another
     * roll; any other face resets the streak and passes the turn when no
     * token can move.
     */
    method ApplyRoll(p: Player, playerId: int, value: int) returns (extraTurn: bool)
      requires board.Shaped() && Seated() && p == Current() && TokensWellFormed(p)
      requires DiceMin <= value <= DiceMax
      modifies this`events, room`currentTurn, p`consecutiveSix
      ensures Seated()
      ensures p.consecutiveSix < MaxConsecutiveSix
      ensures value == RollForExtraTurn && old(p.consecutiveSix) + 1 >= MaxConsecutiveSix ==>
                && p.consecutiveSix == 0 && !extraTurn
                && room.currentTurn == NextSeat(old(room.currentTurn), |room.players|)
                && events == old(events) + [TurnChanged(Current().id), DiceRolled(playerId, value, false)]
      ensures value == RollForExtraTurn && old(p.consecutiveSix) + 1 < MaxConsecutiveSix ==>
                && p.consecutiveSix == old(p.consecutiveSix) + 1 && extraTurn
                && room.currentTurn == old(room.currentTurn)
                && events == old(events) + [DiceRolled(playerId, value, true)]
      ensures value != RollForExtraTurn ==>
                && p.consecutiveSix == 0 && !extraTurn
                && (Movable(p, value) ==>
                      room.currentTurn == old(room.currentTurn)
                      && events == old(events) + [DiceRolled(playerId, value, false)])
                && (!Movable(p, value) ==>
                      room.currentTurn == NextSeat(old(room.currentTurn), |room.players|)
                      && events == old(events) + [TurnChanged(Current().id), DiceRolled(playerId, value, false)])
    {
      extraTurn := false;
      if value == RollForExtraTurn {
        if p.consecutiveSix + 1 >= MaxConsecutiveSix {
          p.consecutiveSix := 0;
          NextTurn();
          Emit(DiceRolled(playerId, value, false));
          return false;
        }
        p.consecutiveSix := p.consecutiveSix + 1;
        extraTurn := true;
      } else {
        p.consecutiveSix := 0;
      }
      var canMove := HasValidMove(p, value);
      if !canMove && !extraTurn {
        NextTurn();
      }
      Emit(DiceRolled(playerId, value, extraTurn));
    }

    /**
     * `RollDice`, with `draw` the face the random source would give minus one.
     * The room's state is not consulted.
     */
    method RollDice(playerId: int, draw: int) returns (value: int, extraTurn: bool, err: Option<EngineError>)
      requires Valid() && Seated()
      requires 0 <= draw < DiceMax
      modifies this`rollCount, this`events, room`currentTurn, room`lastDice, Current()`consecutiveSix
      ensures Valid() && Seated()
      ensures old(Current().id) != playerId ==>
                err == Some(NotYourTurn) && value == 0 && !extraTurn
                && unchanged(this, room, old(Current()))
      ensures old(Current().id) == playerId ==>
                && err.None?
                && rollCount == old(rollCount)[playerId := old(Rolls(playerId)) + 1]
                && value == RiggedDice(old(Rolls(playerId)) + 1, draw)
                && room.lastDice == value
      // The third six in a row forfeits the turn.
      ensures old(Current().id) == playerId && value == RollForExtraTurn
              && old(Current().consecutiveSix) + 1 >= MaxConsecutiveSix ==>
                && old(Current()).consecutiveSix == 0 && !extraTurn
                && room.currentTurn == NextSeat(old(room.currentTurn), |room.players|)
                && events == old(events) + [TurnChanged(Current().id), DiceRolled(playerId, value, false)]
      // Any other six grants another roll, whether or not a token can move.
      ensures old(Current().id) == playerId && value == RollForExtraTurn
              && old(Current().consecutiveSix) + 1 < MaxConsecutiveSix ==>
                && old(Current()).consecutiveSix == old(Current().consecutiveSix) + 1 && extraTurn
                && room.currentTurn == old(room.currentTurn)
                && events == old(events) + [DiceRolled(playerId, value, true)]
      // Any other face resets the streak, and passes the turn when nothing can move.
      ensures old(Current().id) == playerId && value != RollForExtraTurn ==>
                && old(Current()).consecutiveSix == 0 && !extraTurn
                && (Movable(old(Current()), value) ==>
                      room.currentTurn == old(room.currentTurn)
                      && events == old(events) + [DiceRolled(playerId, value, false)])
                && (!Movable(old(Current()), value) ==>
                      room.currentTurn == NextSeat(old(room.currentTurn), |room.players|)
                      && events == old(events) + [TurnChanged(Current().id), DiceRolled(playerId, value, false)])
    {
      var p := room.players[room.currentTurn];
      if p.id != playerId {
        return 0, false, Some(NotYourTurn);
      }
      value := RecordRoll(playerId, draw);
      extraTurn := ApplyRoll(p, playerId, value);
      err := None;
    }

    /** The clearing half of `moveTokenToPosition`: the cell of t's position stops referencing it. */
    method Vacate(t: Token, color: Color)
      requires board.Valid()
      requires t.color == color
      requires -1 <= t.position <= LastPosition && (color == NoColor ==> t.position < TotalCells)
      modifies board.cells, board.stretches
      ensures board.Valid()
      ensures forall i :: 0 <= i < TotalCells ==>
                board.cells[i] == (if i == t.position then null else old(board.cells[i]))
      ensures forall r, k :: 0 <= r < |Colors| && 0 <= k < HomeCells ==>
                board.stretches[r, k] == (if Colors[r] == color && TotalCells + k == t.position then null else old(board.stretches[r, k]))
    {
      var pos := t.position;
      if 0 <= pos < TotalCells {
        board.cells[pos] := null;
      } else if pos >= TotalCells {
        board.stretches[ColorIndex(color), pos - TotalCells] := null;
      }
    }

    /**
     * The placing half of `moveTokenToPosition`: t, referenced by no cell,
     * takes position `newPos` and is referenced from that cell; a stretch
     * index of 6 or more marks it home instead.
     */
    method Place(t: Token, newPos: int, color: Color)
      requires board.Valid()
      requires t.color == color
      requires forall i :: 0 <= i < TotalCells ==> board.cells[i] != t
      requires forall r, k :: 0 <= r < |Colors| && 0 <= k < HomeCells ==> board.stretches[r, k] != t
      requires 0 <= newPos && (color == NoColor ==> newPos < TotalCells)
      modifies t, board.cells, board.stretches
      ensures board.Valid()
      ensures t.position == newPos
      ensures t.isHome == (old(t.isHome) || newPos - TotalCells >= HomeCells)
      ensures newPos < TotalCells ==> board.cells[newPos] == t && t.isSafe == board.safe[newPos]
      ensures TotalCells <= newPos ==> t.isSafe == old(t.isSafe)
      ensures TotalCells <= newPos < TotalCells + HomeCells ==> board.stretches[ColorIndex(color), newPos - TotalCells] == t
      ensures forall i :: 0 <= i < TotalCells && i != newPos ==> board.cells[i] == old(board.cells[i])
      ensures forall r, k :: 0 <= r < |Colors| && 0 <= k < HomeCells && !(Colors[r] == color && TotalCells + k == newPos) ==>
                board.stretches[r, k] == old(board.stretches[r, k])
    {
      t.position := newPos;
      if newPos >= TotalCells {
        var homeIdx := newPos - TotalCells;
        if homeIdx >= HomeCells {
          t.isHome := true;
        } else {
          board.stretches[ColorIndex(color), homeIdx] := t;
        }
      } else {
        board.cells[newPos] := t;
        t.isSafe := board.safe[newPos];
      }
    }

    /**
     * `moveTokenToPosition`: clears the cell of the token's current position,
     * then references the token from its new cell.
     */
    method MoveTokenToPosition(t: Token, newPos: int, color: Color)
      requires board.Valid()
      requires t.color == color
      requires -1 <= t.position <= LastPosition && (color == NoColor ==> t.position < TotalCells)
      requires 0 <= newPos && (color == NoColor ==> newPos < TotalCells)
      modifies t, board.cells, board.stretches
      ensures board.Valid()
      ensures t.position == newPos
      ensures t.isHome == (old(t.isHome) || newPos - TotalCells >= HomeCells)
      ensures newPos < TotalCells ==> board.cells[newPos] == t && t.isSafe == board.safe[newPos]
      ensures TotalCells <= newPos ==> t.isSafe == old(t.isSafe)
      ensures TotalCells <= newPos < TotalCells + HomeCells ==> board.stretches[ColorIndex(color), newPos - TotalCells] == t
      ensures forall i :: 0 <= i < TotalCells && i != newPos ==>
                board.cells[i] == (if i == old(t.position) then null else old(board.cells[i]))
      ensures forall r, k :: 0 <= r < |Colors| && 0 <= k < HomeCells && !(Colors[r] == color && TotalCells + k == newPos) ==>
                board.stretches[r, k] == (if Colors[r] == color && TotalCells + k == old(t.position) then null else old(board.stretches[r, k]))
    {
      Vacate(t, color);
      Place(t, newPos, color);
    }

    /**
     * The board after token t of colour c went from `from` to `to`: the
     * destination ring or stretch cell references t, its old ring cell is
     * empty, and every other ring and stretch cell is as it was.
     */
    twostate predicate Relocated(c: Color, t: Token, from: int, to: int)
      reads board.cells, board.stretches
      requires board.Shaped()
    {
      && (0 <= to < TotalCells ==> board.cells[to] == t)
      && (0 <= from < TotalCells && from != to ==> board.cells[from] == null)
      && (forall i :: 0 <= i < TotalCells && i != from && i != to ==> board.cells[i] == old(board.cells[i]))
      && (TotalCells <= to ==> c != NoColor && to <= LastPosition && board.stretches[ColorIndex(c), to - TotalCells] == t)
      && (forall r, j :: 0 <= r < |Colors| && 0 <= j < HomeCells && !(Colors[r] == c && TotalCells + j == to) ==>
            board.stretches[r, j] == (if Colors[r] == c && TotalCells + j == from then null else old(board.stretches[r, j])))
    }

    /** The token ring cell `pos` references, if any. */
    ghost function Occupant(pos: int): set<object>
      reads board.cells
    {
      if 0 <= pos < board.cells.Length && board.cells[pos] != null then {board.cells[pos]} else {}
    }

    /**
     * `checkCapture`: an opposing token referenced by a non-safe ring cell is
     * sent back to base and the cell emptied; otherwise nothing changes.
     */
    method CheckCapture(pos: int, capturer: Player) returns (captured: Token?)
      requires board.Valid()
      modifies board.cells, Occupant(pos)
      ensures board.Valid()
      ensures captured != null <==>
                0 <= pos < TotalCells && old(board.cells[pos]) != null && !board.safe[pos]
                && old(board.cells[pos]).color != capturer.color
      ensures captured != null ==>
                captured == old(board.cells[pos]) && board.cells[pos] == null
                && captured.position == -1 && !captured.isHome && captured.isSafe
      ensures captured == null ==> unchanged(board.cells)
      ensures captured == null && 0 <= pos < TotalCells && old(board.cells[pos]) != null ==> unchanged(old(board.cells[pos]))
      ensures forall i :: 0 <= i < TotalCells && i != pos ==> board.cells[i] == old(board.cells[i])
    {
      if pos < 0 || pos >= TotalCells {
        return null;
      }
      var victim := board.cells[pos];
      if victim == null || board.safe[pos] {
        return null;
      }
      if victim.color == capturer.color {
        return null;
      }
      victim.position := -1;
      victim.isHome := false;
      victim.isSafe := true;
      board.cells[pos] := null;
      return victim;
    }

    /** `checkWin`: all of p's tokens are home; a win records four tokens at home. */
    method CheckWin(p: Player) returns (won: bool)
      modifies p`tokensAtHome
      ensures won <==> forall k :: 0 <= k < |p.tokens| ==> p.tokens[k].isHome
      ensures p.tokensAtHome == if won then TokensPerPlayer else old(p.tokensAtHome)
    {
      var k := 0;
      while k < |p.tokens|
        invariant 0 <= k <= |p.tokens|
        invariant forall j :: 0 <= j < k ==> p.tokens[j].isHome
      {
        if !p.tokens[k].isHome {
          return false;
        }
        k := k + 1;
      }
      p.tokensAtHome := TokensPerPlayer;
      return true;
    }

    /** `endGame`: the game is over, won by w, ranked w first and then every other id in seat order. */
    method EndGame(w: Player)
      modifies this`winner, this`rankings, this`events, room`state
      ensures winner == w && room.state == Finished
      ensures rankings == [w] + Others(room.players, w.id)
      ensures events == old(events) + [GameOver(w, rankings)]
    {
      winner := w;
      room.state := Finished;
      var ranked := [w];
      var i := 0;
      while i < |room.players|
        invariant 0 <= i <= |room.players|
        invariant ranked == [w] + Others(room.players[..i], w.id)
      {
        assert room.players[..i + 1][..i] == room.players[..i];
        if room.players[i].id != w.id {
          ranked := ranked + [room.players[i]];
        }
        i := i + 1;
      }
      assert room.players[..i] == room.players;
      rankings := ranked;
      events := events + [GameOver(w, rankings)];
    }

    /**
     * The moving half of `MoveToken`: token k of the current player p goes
     * `d` forward, then the destination is checked for a capture, which
     * never happens since the cell references the mover itself.
     */
    method Advance(p: Player, k: int, d: int) returns (captured: Token?)
      requires Valid() && Seated() && p == Current()
      requires 0 <= k < |p.tokens| && 0 <= d <= DiceMax && CanMoveToken(p.tokens[k], d, p.color)
      modifies p.tokens[k], board.cells, board.stretches
      ensures Valid() && captured == null
      ensures var t := p.tokens[k]; var from := old(t.position); var to := CalculateNewPosition(from, d, p.color);
                && t.position == to && !t.isHome
                && (to < TotalCells ==> t.isSafe == board.safe[to])
                && Relocated(p.color, t, from, to)
                && (TotalCells <= from && from != to ==> p.color != NoColor && board.stretches[ColorIndex(p.color), from - TotalCells] == null)
                && (to < TotalCells && old(board.cells[to]) != null && old(board.cells[to]) != t ==>
                      forall i :: 0 <= i < TotalCells ==> board.cells[i] != old(board.cells[to]))
    {
      var t := p.tokens[k];
      var to := CalculateNewPosition(t.position, d, p.color);
      CalculateNewPositionRange(t.position, d, p.color);
      MoveTokenToPosition(t, to, p.color);
      assert Relocated(p.color, t, old(t.position), to);
      captured := CheckCapture(to, p);
      if captured != null {
        // The capture report is unreachable: the cell holds the mover.
        assert false;
      }
      MovedTokenKeepsPlayers(t);
    }

    /**
     * Moving one token to a position its colour may hold, leaving the others
     * alone, keeps every seated player's tokens well formed.
     */
    twostate lemma MovedTokenKeepsPlayers(t: Token)
      requires old(forall i :: 0 <= i < |room.players| ==> TokensWellFormed(room.players[i]))
      requires unchanged(room`players)
      requires !t.isHome
      requires -1 <= t.position <= LastPosition && (t.color == NoColor ==> t.position < TotalCells)
      requires forall u :: u in old(PlayerTokens()) && u != t ==> unchanged(u)
      ensures forall i :: 0 <= i < |room.players| ==> TokensWellFormed(room.players[i])
    {
      forall i | 0 <= i < |room.players|
        ensures TokensWellFormed(room.players[i])
      {
        var q := room.players[i];
        forall k | 0 <= k < |q.tokens|
          ensures q.tokens[k] in old(PlayerTokens())
        {
        }
      }
    }

    /**
     * The closing half of `MoveToken`: the win check, which fails while a
     * token of p is not home, then the turn passes unless `d` was a six.
     */
    method Conclude(p: Player, d: int)
      requires Valid() && Seated() && p == Current()
      requires exists k :: 0 <= k < |p.tokens| && !p.tokens[k].isHome
      modifies p`tokensAtHome, room`currentTurn, this`events
      ensures Valid() && Seated() && p.tokensAtHome == old(p.tokensAtHome)
      ensures d != RollForExtraTurn ==>
                room.currentTurn == NextSeat(old(room.currentTurn), |room.players|)
                && events == old(events) + [TurnChanged(Current().id)]
      ensures d == RollForExtraTurn ==> room.currentTurn == old(room.currentTurn) && events == old(events)
    {
      var won := CheckWin(p);
      if won {
        // `endGame` is unreachable: the mover is never home.
        assert false;
      }
      if d != RollForExtraTurn {
        NextTurn();
      }
    }

    /**
     * `MoveToken`: moves the current player's token `tokenId` by the last die.
     * The room's state is not consulted. The mover is written into its
     * destination cell before the capture check reads that cell, so the check
     * only ever sees the mover: an opposing token there is silently dropped
     * from the board (it keeps its position), and no capture is reported. The
     * mover never becomes home, so the win check never succeeds.
     */
    method MoveToken(playerId: int, tokenId: int) returns (err: Option<EngineError>)
      requires Valid() && Seated()
      modifies this`history, this`events, this`winner, this`rankings, room`currentTurn, room`state
      modifies board.cells, board.stretches, Current()`tokensAtHome, Current().tokens
      ensures Valid() && Seated()
      ensures old(Current().id) != playerId ==> err == Some(NotYourTurn)
      ensures old(Current().id) == playerId && !(0 <= tokenId < TokensPerPlayer) ==> err == Some(InvalidTokenId)
      ensures (old(Current().id) == playerId && 0 <= tokenId < TokensPerPlayer
               && !old(CanMoveToken(Current().tokens[tokenId], room.lastDice, Current().color))) ==> err == Some(InvalidMove)
      ensures err.Some? ==>
                && unchanged(this, room, board.cells, board.stretches)
                && unchanged(old(Current())) && unchanged(old(Current()).tokens)
      ensures err.None? <==>
                && old(Current().id) == playerId && 0 <= tokenId < TokensPerPlayer
                && old(CanMoveToken(Current().tokens[tokenId], room.lastDice, Current().color))
      ensures err.None? ==>
                var p := old(Current()); var t := p.tokens[tokenId]; var d := room.lastDice;
                var from := old(t.position); var to := CalculateNewPosition(from, d, p.color);
                && d == old(room.lastDice)
                && t.position == to && !t.isHome
                && (to < TotalCells ==> t.isSafe == board.safe[to])
                && Relocated(p.color, t, from, to)
                && (forall k :: 0 <= k < |p.tokens| && p.tokens[k] != t ==> unchanged(p.tokens[k]))
                && p.tokensAtHome == old(p.tokensAtHome)
                && history == old(history) + [TurnAction(playerId, d, t, from, to, null)]
                && room.state == old(room.state) && winner == old(winner) && rankings == old(rankings)
                && (d != RollForExtraTurn ==>
                      room.currentTurn == NextSeat(old(room.currentTurn), |room.players|)
                      && events == old(events) + [TokenMoved(playerId, t, from, to), TurnChanged(Current().id)])
                && (d == RollForExtraTurn ==>
                      room.currentTurn == old(room.currentTurn)
                      && events == old(events) + [TokenMoved(playerId, t, from, to)])
    {
      var p := room.players[room.currentTurn];
      if p.id != playerId {
        return Some(NotYourTurn);
      }
      if tokenId < 0 || tokenId >= |p.tokens| {
        return Some(InvalidTokenId);
      }
      var t := p.tokens[tokenId];
      var d := room.lastDice;
      if !CanMoveToken(t, d, p.color) {
        return Some(InvalidMove);
      }
      Play(p, playerId, tokenId);
      return None;
    }

    /** The accepted half of `MoveToken`: the move, its record, its report, then the win check and the turn. */
    method Play(p: Player, playerId: int, tokenId: int)
      requires Valid() && Seated() && p == Current() && p.id == playerId
      requires 0 <= tokenId < |p.tokens| && CanMoveToken(p.tokens[tokenId], room.lastDice, p.color)
      modifies this`history, this`events, room`currentTurn
      modifies board.cells, board.stretches, p`tokensAtHome, p.tokens[tokenId]
      ensures Valid() && Seated()
      ensures var t := p.tokens[tokenId]; var d := room.lastDice;
                var from := old(t.position); var to := CalculateNewPosition(from, d, p.color);
                && t.position == to && !t.isHome
                && (to < TotalCells ==> t.isSafe == board.safe[to])
                && Relocated(p.color, t, from, to)
                && p.tokensAtHome == old(p.tokensAtHome)
                && history == old(history) + [TurnAction(playerId, d, t, from, to, null)]
                && (d != RollForExtraTurn ==>
                      room.currentTurn == NextSeat(old(room.currentTurn), |room.players|)
                      && events == old(events) + [TokenMoved(playerId, t, from, to), TurnChanged(Current().id)])
                && (d == RollForExtraTurn ==>
                      room.currentTurn == old(room.currentTurn)
                      && events == old(events) + [TokenMoved(playerId, t, from, to)])
    {
      var t := p.tokens[tokenId];
      var d := room.lastDice;
      var from := t.position;
      var to := CalculateNewPosition(from, d, p.color);
      var captured := Advance(p, tokenId, d);
      if captured != null {
        // The capture report is unreachable: `Advance` never captures.
        assert false;
      }
      assert !p.tokens[tokenId].isHome;
      Record(p, playerId, d, t, from, to);
    }

    /**
     * What follows an accepted move that captured nothing: the action is
     * appended to the history and reported, then the win check and the turn
     * rule run.
     */
    method Record(p: Player, playerId: int, d: int, t: Token, from: int, to: int)
      requires Valid() && Seated() && p == Current()
      requires exists k :: 0 <= k < |p.tokens| && !p.tokens[k].isHome
      modifies this`history, this`events, room`currentTurn, p`tokensAtHome
      ensures Valid() && Seated() && p.tokensAtHome == old(p.tokensAtHome)
      ensures history == old(history) + [TurnAction(playerId, d, t, from, to, null)]
      ensures d != RollForExtraTurn ==>
                room.currentTurn == NextSeat(old(room.currentTurn), |room.players|)
                && events == old(events) + [TokenMoved(playerId, t, from, to), TurnChanged(Current().id)]
      ensures d == RollForExtraTurn ==>
                room.currentTurn == old(room.currentTurn) && events == old(events) + [TokenMoved(playerId, t, from, to)]
    {
      history := history + [TurnAction(playerId, d, t, from, to, null)];
      events := events + [TokenMoved(playerId, t, from, to)];
      Conclude(p, d);
    }
  }
}
