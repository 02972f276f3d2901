/**
 * Game constants and the fixed position tables of the server
 * (internal/shared/constants/constants.go).
 */
module Constants {

  const MaxPlayers: int := 4
  const MinPlayers: int := 2

  const BoardSize: int := 15
  const TotalCells: int := 52
  const HomeCells: int := 6
  const SafeCells: int := 8
  const TokensPerPlayer: int := 4

  const DiceMin: int := 1
  const DiceMax: int := 6
  const RollToStart: int := 6
  const RollForExtraTurn: int := 6
  const MaxConsecutiveSix: int := 3

  /** Seconds before a player's turn is forfeited. */
  const TurnTimeout: int := 30

  /** The last cell of a home stretch, the highest legal token position. */
  const LastPosition: int := 57

  /**
   * Player colours. `NoColor` is Go's zero `PlayerColor` (the empty string):
   * a room hands it out once the four real colours are taken, and every table
   * lookup with it yields the map's zero value.
   */
  datatype Color = Red | Blue | Green | Yellow | NoColor

  /** The canonical colour order used when seating players. */
  const Colors: seq<Color> := [Red, Blue, Green, Yellow]

  datatype GameState = Waiting | Playing | Finished

  /** Wire message type tags, client to server. */
  const MsgJoinRoom: string := "JOIN_ROOM"
  const MsgCreateRoom: string := "CREATE_ROOM"
  const MsgLeaveRoom: string := "LEAVE_ROOM"
  const MsgRollDice: string := "ROLL_DICE"
  const MsgMoveToken: string := "MOVE_TOKEN"
  const MsgChatMessage: string := "CHAT_MESSAGE"
  const MsgReady: string := "PLAYER_READY"

  /** Ring cell where a colour's tokens enter play (`StartingPositions`). */
  function StartingPosition(c: Color): int
  {
    match c
    case Red => 0
    case Blue => 13
    case Green => 26
    case Yellow => 39
    case NoColor => 0
  }

  /** Ring cells on which no capture happens. */
  const SafePositions: seq<int> := [0, 8, 13, 21, 26, 34, 39, 47]

  /** Ring cell at which a colour leaves the ring for its home stretch (`HomeStretchStart`). */
  function HomeStretchStart(c: Color): int
  {
    match c
    case Red => 50
    case Blue => 11
    case Green => 24
    case Yellow => 37
    case NoColor => 0
  }

  /** Row of a colour's home stretch in the board's stretch table. */
  function ColorIndex(c: Color): (i: nat)
    requires c != NoColor
    ensures i < |Colors| && Colors[i] == c
  {
    match c
    case Red => 0
    case Blue => 1
    case Green => 2
    case Yellow => 3
  }

  lemma StartingPositionsDistinct(c: Color, d: Color)
    requires c != NoColor && d != NoColor && c != d
    ensures StartingPosition(c) != StartingPosition(d)
    ensures 0 <= StartingPosition(c) < TotalCells
  {
  }

  lemma StartingPositionsAreSafe(c: Color)
    requires c != NoColor
    ensures StartingPosition(c) in SafePositions
  {
  }

  lemma SafePositionsTable()
    ensures |SafePositions| == SafeCells
    ensures forall i :: 0 <= i < |SafePositions| ==> 0 <= SafePositions[i] < TotalCells
    ensures forall i, j :: 0 <= i < j < |SafePositions| ==> SafePositions[i] < SafePositions[j]
  {
  }

  lemma HomeStretchStartPrecedesStart(c: Color)
    requires c != NoColor
    ensures HomeStretchStart(c) == (StartingPosition(c) + 50) % TotalCells
  {
  }

  lemma DiceConstants()
    ensures DiceMin == 1 && DiceMax == 6
    ensures RollToStart == DiceMax && RollForExtraTurn == DiceMax
    ensures MaxConsecutiveSix == 3
  {
  }

  lemma PlayerLimits()
    ensures MinPlayers == 2 <= MaxPlayers
    ensures MaxPlayers == |Colors|
    ensures forall i, j :: 0 <= i < j < |Colors| ==> Colors[i] != Colors[j]
    ensures NoColor !in Colors
  {
  }
}
