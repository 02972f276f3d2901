/**
 * The rules of the offline game against the computer (cmd/client/main.go):
 * the client keeps its own copy of the room and applies its own rules,
 * with its own entry cells and safe cells, independently of the server.
 * The user interface, rendering, the network and the goroutines that pace
 * the computer's turns are not part of this model; the time-based dice
 * face is a parameter.
 */
module LocalGame {
  import opened Wrappers
  import opened Constants
  import opened Models
  import Game

  const PathLen: int := 52
  const HomeStretchLen: int := 5
  /** Where a token finishes: past the 52 ring cells and the 5 stretch cells. */
  const Home: int := PathLen + HomeStretchLen

  /** The client's entry cell per colour (`startIndex`); a colour missing from the table reads 0. */
  function ClientStart(c: Color): (s: int)
    ensures 0 <= s < PathLen
  {
    match c
    case Red => 0
    case Green => 13
    case Yellow => 26
    case Blue => 39
    case NoColor => 0
  }

  /** The client's safe cells (`safeCells`). */
  const ClientSafeCells: set<int> := {1, 9, 14, 22, 27, 35, 40, 48}

  /**
   * The client's tables are not the server's: each client safe cell is one
   * past a server safe cell, so no entry cell is safe on the client, and
   * Blue and Green enter where the server makes Yellow and Blue enter.
   */
  lemma ClientTablesDiffer()
    ensures ClientSafeCells == set i | 0 <= i < |SafePositions| :: SafePositions[i] + 1
    ensures forall c: Color :: ClientStart(c) !in ClientSafeCells
    ensures ClientStart(Blue) == StartingPosition(Yellow) && ClientStart(Green) == StartingPosition(Blue)
  {
    var shifted := set i | 0 <= i < |SafePositions| :: SafePositions[i] + 1;
    assert SafePositions[0] + 1 == 1 && SafePositions[1] + 1 == 9 && SafePositions[2] + 1 == 14;
    assert SafePositions[3] + 1 == 22 && SafePositions[4] + 1 == 27 && SafePositions[5] + 1 == 35;
    assert SafePositions[6] + 1 == 40 && SafePositions[7] + 1 == 48;
    assert ClientSafeCells <= shifted;
  }

  /** Go's `%`: the remainder of truncated division, which takes the sign of `a`. */
  function GoRem(a: int, n: int): (r: int)
    requires n > 0
    ensures -n < r < n
    ensures a >= 0 ==> r == a % n
    ensures a < 0 ==> r <= 0 && r == -GoRem(-a, n)
    decreases if a < 0 then 1 else 0
  {
    if a >= 0 then a % n else -((-a) % n)
  }

  /** How far along its lap, from its colour's entry cell, the ring cell `pos` lies. */
  function Relative(pos: int, c: Color): (d: int)
    ensures pos >= 0 ==> 0 <= d < PathLen && (ClientStart(c) + d) % PathLen == pos % PathLen
  {
    GoRem(pos - ClientStart(c) + PathLen, PathLen)
  }

  /**
   * The client's move rule (`canMoveToken` and `moveSelectedToken`): a token
   * in base needs a 6 and goes to its entry cell; any other token advances
   * `dice` cells from its relative distance, is refused past 57, finishes at
   * 57, enters the stretch at 52..56 or stays on the ring. Positions of 52
   * and above are read as ring cells too.
   */
  function ClientDestination(pos: int, dice: int, c: Color): (r: Option<int>)
    ensures pos == -1 ==> (r.Some? <==> dice == DiceMax) && (r.Some? ==> r.value == ClientStart(c))
    ensures pos != -1 ==> (r.Some? <==> Relative(pos, c) + dice <= Home)
  {
    if pos == -1 then
      if dice == 6 then Some(ClientStart(c)) else None
    else
      var newRelative := Relative(pos, c) + dice;
      if newRelative > PathLen + HomeStretchLen then None
      else if newRelative == PathLen + HomeStretchLen then Some(PathLen + HomeStretchLen)
      else if newRelative >= PathLen then Some(PathLen + (newRelative - PathLen))
      else Some((ClientStart(c) + newRelative) % PathLen)
  }

  /**
   * A move from the board advances the token exactly `dice` cells along its
   * colour's lap: a ring destination lies `dice` further from the entry
   * cell, and a stretch destination is the new distance itself.
   */
  lemma DestinationAdvances(pos: int, dice: int, c: Color)
    requires pos >= 0 && DiceMin <= dice <= DiceMax && ClientDestination(pos, dice, c).Some?
    ensures var d := ClientDestination(pos, dice, c).value;
              && 0 <= d <= Home
              && (d < PathLen ==> Relative(d, c) == Relative(pos, c) + dice)
              && (d >= PathLen ==> d == Relative(pos, c) + dice)
  {
    var n := Relative(pos, c) + dice;
    if n < PathLen {
      var d := (ClientStart(c) + n) % PathLen;
      assert Relative(d, c) == n by {
        var s := ClientStart(c);
        if s + n < PathLen {
          assert d == s + n;
        } else {
          assert d == s + n - PathLen;
        }
      }
    }
  }

  /**
   * A finished token (at 57) of any colour can still move: the relative
   * distance wraps round, and a roll of `dice` sends it back to ring cell
   * 5 + dice.
   */
  lemma HomeTokenReturnsToRing(c: Color, dice: int)
    requires DiceMin <= dice <= DiceMax
    ensures ClientDestination(Home, dice, c) == Some(5 + dice)
  {
  }

  /** The computer's pick rule: a token in base with a 6, or a token on the board short of 57 that can advance. */
  predicate AiEligible(pos: int, dice: int, c: Color)
  {
    (pos == -1 && dice == 6) || (0 <= pos < PathLen + HomeStretchLen && Relative(pos, c) + dice <= PathLen + HomeStretchLen)
  }

  /** The computer moves exactly the tokens a human could, except that it leaves finished tokens alone. */
  lemma AiEligibleIsHumanRuleShortOfHome(pos: int, dice: int, c: Color)
    requires -1 <= pos <= Home
    ensures AiEligible(pos, dice, c) <==> pos != Home && ClientDestination(pos, dice, c).Some?
  {
  }

  /** A selected token, by seat and token index (`SelectedToken`). */
  datatype Selection = Selection(playerIndex: int, tokenIndex: int)

  /** A square that captures: a ring cell the client does not mark safe. */
  predicate Capturable(pos: int)
  {
    0 <= pos < PathLen && pos !in ClientSafeCells
  }

  /** The rule state of the client (`Client`), over its local room. */
  class Client {
    const userId: int
    const room: RoomModel
    var rollCount: nat
    var currentDice: int
    var isMyTurn: bool
    var selected: Option<Selection>

    /** A client whose board has just been shown (`showGameBoard`): no dice, no selection, my turn iff seat 0 plays. */
    constructor (userId: int, room: RoomModel)
      ensures this.userId == userId && this.room == room
      ensures rollCount == 0 && currentDice == 0 && selected == None
      ensures isMyTurn == (room.currentTurn == 0)
      ensures Valid() <==>
                && 0 <= room.currentTurn < |room.players|
                && forall i, k :: 0 <= i < |room.players| && 0 <= k < |room.players[i].tokens| ==>
                     room.players[i].tokens[k].color == room.players[i].color
    {
      this.userId := userId;
      this.room := room;
      rollCount := 0;
      currentDice := 0;
      isMyTurn := room.currentTurn == 0;
      selected := None;
    }

    /** The seat to play exists, and each token has its owner's colour. */
    ghost predicate Valid()
      reads room
    {
      && 0 <= room.currentTurn < |room.players|
      && forall i, k :: 0 <= i < |room.players| && 0 <= k < |room.players[i].tokens| ==>
           room.players[i].tokens[k].color == room.players[i].color
    }

    /** Every token of every seat. */
    ghost function Tokens(): set<Token>
      reads room
    {
      set i, k | 0 <= i < |room.players| && 0 <= k < |room.players[i].tokens| :: room.players[i].tokens[k]
    }

    /**
     * `rollDiceWithCheat`: one counter for every roll of the game, human or
     * computer; call n gives a 6 when n is 1 or a multiple of 5, and the
     * clock's face otherwise.
     */
    method RollDiceWithCheat(draw: int) returns (dice: int)
      requires 0 <= draw < DiceMax
      modifies this`rollCount
      ensures rollCount == old(rollCount) + 1
      ensures dice == Game.RiggedDice(rollCount, draw)
    {
      rollCount := rollCount + 1;
      dice := Game.RiggedDice(rollCount, draw);
    }

    /** `canMoveToken`: my turn, a rolled dice, my own token, and a destination under the move rule. */
    function CanMoveToken(p: Player, k: int): (ok: bool)
      requires 0 <= k < |p.tokens|
      reads this, p.tokens[k]
      ensures ok <==> isMyTurn && currentDice != 0 && p.id == userId
                      && ClientDestination(p.tokens[k].position, currentDice, p.color).Some?
    {
      if !isMyTurn || currentDice == 0 then false
      else if p.id != userId then false
      else if p.tokens[k].position == -1 then currentDice == 6
      else
        var relativePos := GoRem(p.tokens[k].position - ClientStart(p.color) + PathLen, PathLen);
        relativePos + currentDice <= PathLen + HomeStretchLen
    }

    /** The inner loop of `checkCapture`: every token of the seat standing on `position` goes back to base. */
    method SendBack(seat: int, position: int)
      requires 0 <= seat < |room.players|
      modifies Tokens()`position
      ensures forall t :: t in Tokens() ==>
                t.position == if t in room.players[seat].tokens && old(t.position) == position then -1 else old(t.position)
    {
      var player := room.players[seat];
      var k := 0;
      while k < |player.tokens|
        invariant 0 <= k <= |player.tokens|
        invariant forall t :: t in Tokens() ==>
                    t.position == if t in player.tokens[..k] && old(t.position) == position then -1 else old(t.position)
      {
        var token := player.tokens[k];
        assert token in Tokens();
        if token.position == position {
          token.position := -1;
        }
        assert player.tokens[..k + 1] == player.tokens[..k] + [token];
        k := k + 1;
      }
      assert player.tokens[..k] == player.tokens;
    }

    /**
     * `checkCapture`: on a capturing square, every token of another colour
     * standing there goes back to base; nothing else changes.
     */
    method CheckCapture(myColor: Color, position: int)
      requires Valid()
      modifies Tokens()`position
      ensures forall t :: t in Tokens() ==>
                t.position == if Capturable(position) && t.color != myColor && old(t.position) == position then -1 else old(t.position)
    {
      if position < 0 || position >= PathLen {
        return;
      }
      if position in ClientSafeCells {
        return;
      }
      ghost var seen: set<Token> := {};
      var i := 0;
      while i < |room.players|
        invariant 0 <= i <= |room.players|
        invariant forall j, m :: 0 <= j < i && 0 <= m < |room.players[j].tokens| ==> room.players[j].tokens[m] in seen
        invariant forall t :: t in Tokens() ==>
                    t.position == if t.color != myColor && old(t.position) == position && t in seen then -1 else old(t.position)
      {
        var player := room.players[i];
        if player.color != myColor {
          SendBack(i, position);
        }
        seen := seen + set m | 0 <= m < |player.tokens| :: player.tokens[m];
        i := i + 1;
      }
    }

    /** `checkWin`: every token of p is at 57. */
    method CheckWin(p: Player) returns (won: bool)
      ensures won <==> forall k :: 0 <= k < |p.tokens| ==> p.tokens[k].position == Home
    {
      var k := 0;
      while k < |p.tokens|
        invariant 0 <= k <= |p.tokens|
        invariant forall m :: 0 <= m < k ==> p.tokens[m].position == Home
      {
        if p.tokens[k].position != PathLen + HomeStretchLen {
          return false;
        }
        k := k + 1;
      }
      return true;
    }

    /** `nextTurn`: the next seat plays, with no dice and no selection; it is my turn iff that seat is mine. */
    method NextTurn()
      requires Valid()
      modifies room`currentTurn, this`isMyTurn, this`currentDice, this`selected
      ensures Valid()
      ensures room.currentTurn == Game.NextSeat(old(room.currentTurn), |room.players|)
      ensures isMyTurn == (room.players[room.currentTurn].id == userId)
      ensures currentDice == 0 && selected == None
    {
      room.currentTurn := (room.currentTurn + 1) % |room.players|;
      var currentPlayer := room.players[room.currentTurn];
      isMyTurn := currentPlayer.id == userId;
      currentDice := 0;
      selected := None;
    }

    /** Puts token k of p (seated at `seat`) on `dest`, then captures there for p's colour. */
    method Relocate(p: Player, seat: int, k: int, dest: int)
      requires Valid() && 0 <= seat < |room.players| && room.players[seat] == p && 0 <= k < |p.tokens|
      modifies Tokens()`position
      ensures p.tokens[k].position == dest
      ensures forall u :: u in Tokens() && u != p.tokens[k] ==>
                u.position == if Capturable(dest) && u.color != p.color && old(u.position) == dest then -1 else old(u.position)
    {
      var token := p.tokens[k];
      assert token in Tokens() && token.color == p.color;
      token.position := dest;
      CheckCapture(p.color, dest);
    }

    /**
     * `moveSelectedToken`: moves token k of p (seated at `seat`) under the
     * move rule with the current dice; a refused move changes nothing.
     * After a move, other colours are captured on the destination, the win
     * is checked and the selection cleared; a 6 lets the same seat roll
     * again, any other face passes the turn.
     */
    method MoveSelectedToken(p: Player, seat: int, k: int) returns (won: bool)
      requires Valid() && 0 <= seat < |room.players| && room.players[seat] == p && 0 <= k < |p.tokens|
      modifies Tokens()`position, this`currentDice, this`selected, this`isMyTurn, room`currentTurn
      ensures Valid()
      ensures var dest := ClientDestination(old(p.tokens[k].position), old(currentDice), p.color);
              && (dest.None? ==>
                    && !won && currentDice == old(currentDice) && selected == old(selected)
                    && isMyTurn == old(isMyTurn) && room.currentTurn == old(room.currentTurn)
                    && forall u :: u in Tokens() ==> u.position == old(u.position))
              && (dest.Some? ==>
                    && p.tokens[k].position == dest.value
                    && (forall u :: u in Tokens() && u != p.tokens[k] ==>
                          u.position == if Capturable(dest.value) && u.color != p.color && old(u.position) == dest.value
                                        then -1 else old(u.position))
                    && (won <==> forall m :: 0 <= m < |p.tokens| ==> p.tokens[m].position == Home)
                    && currentDice == 0 && selected == None
                    && (old(currentDice) == 6 ==> isMyTurn == old(isMyTurn) && room.currentTurn == old(room.currentTurn))
                    && (old(currentDice) != 6 ==>
                          && room.currentTurn == Game.NextSeat(old(room.currentTurn), |room.players|)
                          && isMyTurn == (room.players[room.currentTurn].id == userId)))
    {
      var dest := ClientDestination(p.tokens[k].position, currentDice, p.color);
      if dest.None? {
        return false;
      }
      Relocate(p, seat, k, dest.value);
      won := CheckWin(p);
      selected := None;
      if currentDice == 6 {
        currentDice := 0;
      } else {
        currentDice := 0;
        NextTurn();
      }
    }

    /**
     * The computer's token choice in `playAITurns`: the first token, in
     * order, that it may move, or -1 when there is none.
     */
    method FirstEligible(p: Player, dice: int) returns (m: int)
      ensures -1 <= m < |p.tokens|
      ensures m >= 0 ==> AiEligible(p.tokens[m].position, dice, p.color)
      ensures forall j :: 0 <= j < |p.tokens| && (m == -1 || j < m) ==> !AiEligible(p.tokens[j].position, dice, p.color)
    {
      var k := 0;
      while k < |p.tokens|
        invariant 0 <= k <= |p.tokens|
        invariant forall j :: 0 <= j < k ==> !AiEligible(p.tokens[j].position, dice, p.color)
      {
        var pos := p.tokens[k].position;
        if pos == -1 && dice == 6 {
          return k;
        } else if pos >= 0 && pos < PathLen + HomeStretchLen {
          var relativePos := GoRem(pos - ClientStart(p.color) + PathLen, PathLen);
          if relativePos + dice <= PathLen + HomeStretchLen {
            return k;
          }
        }
        k := k + 1;
      }
      return -1;
    }

    /**
     * One computer turn of `playAITurns`, for the seat to play: nothing
     * happens unless that seat is a computer's. It rolls with the shared
     * counter, moves its first eligible token as the human rule would and
     * captures there; it plays again after a 6 that moved a token, and
     * otherwise passes the turn. `again` tells the caller to run another
     * computer turn.
     */
    method PlayAITurn(draw: int) returns (moved: int, again: bool)
      requires Valid() && 0 <= draw < DiceMax
      modifies Tokens()`position, this`rollCount, this`currentDice, this`isMyTurn, this`selected, room`currentTurn
      ensures Valid()
      ensures var p := room.players[old(room.currentTurn)];
              && (!p.isAI ==>
                    && moved == -1 && !again
                    && rollCount == old(rollCount) && currentDice == old(currentDice)
                    && isMyTurn == old(isMyTurn) && selected == old(selected)
                    && room.currentTurn == old(room.currentTurn)
                    && forall u :: u in Tokens() ==> u.position == old(u.position))
              && (p.isAI ==>
                    var dice := Game.RiggedDice(old(rollCount) + 1, draw);
                    && rollCount == old(rollCount) + 1
                    && -1 <= moved < |p.tokens|
                    && (forall j :: 0 <= j < |p.tokens| && (moved == -1 || j < moved) ==>
                          !AiEligible(old(p.tokens[j].position), dice, p.color))
                    && (moved == -1 ==> forall u :: u in Tokens() ==> u.position == old(u.position))
                    && (moved >= 0 ==>
                          var dest := ClientDestination(old(p.tokens[moved].position), dice, p.color);
                          && AiEligible(old(p.tokens[moved].position), dice, p.color)
                          && dest.Some? && p.tokens[moved].position == dest.value
                          && forall u :: u in Tokens() && u != p.tokens[moved] ==>
                               u.position == if Capturable(dest.value) && u.color != p.color && old(u.position) == dest.value
                                             then -1 else old(u.position))
                    && (again <==> dice == 6 && moved >= 0)
                    && currentDice == 0
                    && (again ==>
                          room.currentTurn == old(room.currentTurn) && isMyTurn == old(isMyTurn) && selected == old(selected))
                    && (!again ==>
                          && room.currentTurn == Game.NextSeat(old(room.currentTurn), |room.players|)
                          && selected == None
                          && isMyTurn == (room.players[room.currentTurn].id == userId)))
    {
      var seat := room.currentTurn;
      var player := room.players[seat];
      if !player.isAI {
        return -1, false;
      }
      var aiDice := RollDiceWithCheat(draw);
      currentDice := aiDice;
      moved := FirstEligible(player, aiDice);
      if moved >= 0 {
        AiEligibleIsHumanRuleShortOfHome(player.tokens[moved].position, aiDice, player.color);
        var dest := ClientDestination(player.tokens[moved].position, aiDice, player.color);
        Relocate(player, seat, moved, dest.value);
      }
      if aiDice == 6 && moved >= 0 {
        currentDice := 0;
        again := true;
      } else {
        currentDice := 0;
        NextTurn();
        again := false;
      }
    }
  }

  /**
   * With one counter for all seats, five consecutive rolls always hold a
   * rigged 6, whatever faces the clock gives.
   */
  lemma {:induction false} RiggedSixWithinFiveRolls(n: int, draws: seq<int>)
    requires n >= 1 && |draws| == 5
    requires forall j :: 0 <= j < 5 ==> 0 <= draws[j] < DiceMax
    ensures exists j :: 0 <= j < 5 && Game.RiggedDice(n + j, draws[j]) == RollForExtraTurn
  {
    var j := (5 - n % 5) % 5;
    assert (n + j) % 5 == 0;
    assert Game.RiggedDice(n + j, draws[j]) == RollForExtraTurn;
  }
}
