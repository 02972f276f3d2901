/**
 * The scripted opponent (pkg/ai/ai.go): three token-selection policies and a
 * move scorer. The AI only reads the game, so it is modelled over value
 * snapshots of the player and the board.
 */
module Ai {
  import opened Wrappers
  import opened Constants

  datatype TokenView = TokenView(id: int, color: Color, position: int, isHome: bool)
  datatype PlayerView = PlayerView(color: Color, tokens: seq<TokenView>)

  /**
   * The board as the AI sees it: the token (if any) referenced by each ring
   * cell, each ring cell's safe marking, and each colour's stretch cells.
   */
  datatype BoardView = BoardView(cells: seq<Option<TokenView>>, safe: seq<bool>, stretches: map<Color, seq<Option<TokenView>>>)

  ghost predicate WellFormedBoard(b: BoardView)
  {
    && |b.cells| == TotalCells
    && |b.safe| == TotalCells
    && (forall i :: 0 <= i < |Colors| ==> Colors[i] in b.stretches && |b.stretches[Colors[i]]| == HomeCells)
  }

  /** A token position the game can produce for a token of colour c. */
  ghost predicate TokenOk(t: TokenView, c: Color)
  {
    && -1 <= t.position <= LastPosition
    && (c == NoColor ==> t.position < TotalCells)
  }

  ghost predicate PlayerOk(p: PlayerView)
  {
    forall k :: 0 <= k < |p.tokens| ==> TokenOk(p.tokens[k], p.color)
  }

  /** Destination of a token at `pos` moved by `dice` (`calculateNewPosition`). */
  function CalculateNewPosition(pos: int, dice: int, color: Color): (r: int)
    ensures -1 <= pos <= LastPosition && 0 <= dice <= DiceMax && (color == NoColor ==> pos < TotalCells) ==>
              0 <= r <= LastPosition + DiceMax && (color == NoColor ==> r < TotalCells)
  {
    if pos == -1 then StartingPosition(color)
    else
      var newPos := pos + dice;
      var homeEntry := HomeStretchStart(color);
      if pos < homeEntry && newPos >= homeEntry then TotalCells + (newPos - homeEntry)
      else if newPos >= TotalCells && pos < TotalCells then newPos % TotalCells
      else newPos
  }

  lemma CalculateNewPositionRange(pos: int, dice: int, color: Color)
    requires -1 <= pos <= LastPosition && 0 <= dice <= DiceMax
    requires color == NoColor ==> pos < TotalCells
    ensures var r := CalculateNewPosition(pos, dice, color);
      && 0 <= r <= LastPosition + DiceMax
      && (color == NoColor ==> r < TotalCells)
      && (pos >= TotalCells ==> r == pos + dice)
  {
  }

  /** Whether a token may move (`canMoveToken` of the AI). */
  predicate CanMoveToken(t: TokenView, dice: int, color: Color, b: BoardView): (ok: bool)
    requires WellFormedBoard(b) && TokenOk(t, color) && 0 <= dice <= DiceMax
    ensures ok ==> !t.isHome && CalculateNewPosition(t.position, dice, color) <= LastPosition
    ensures t.position == -1 ==> (ok <==> !t.isHome && dice == RollToStart)
    ensures ok && t.position >= TotalCells ==> t.position + dice <= LastPosition
  {
    if t.isHome then false
    else if t.position == -1 then dice == RollToStart
    else
      var newPos := CalculateNewPosition(t.position, dice, color);
      CalculateNewPositionRange(t.position, dice, color);
      if newPos > LastPosition then false
      else if newPos >= TotalCells then
        assert color == Colors[ColorIndex(color)];
        var cell := b.stretches[color][newPos - TotalCells];
        !(cell.Some? && cell.value.color == color)
      else
        var cell := b.cells[newPos];
        !(cell.Some? && cell.value.color == color)
  }

  /** Landing on `pos` would capture an opponent (`canCapture`). */
  predicate CanCapture(pos: int, color: Color, b: BoardView): (ok: bool)
    requires WellFormedBoard(b)
    ensures ok ==> 0 <= pos < TotalCells && b.cells[pos].Some? && b.cells[pos].value.color != color
  {
    && 0 <= pos < TotalCells
    && b.cells[pos].Some?
    && !b.safe[pos]
    && b.cells[pos].value.color != color
  }

  /** Specification of `isSafePosition`: base, stretch, or a listed safe cell. */
  predicate SafePosition(pos: int)
  {
    pos < 0 || pos >= TotalCells || pos in SafePositions
  }

  /** Specification of `isTokenIsolated`: on the ring, and no friendly token off base within 6 by plain difference. */
  predicate Isolated(t: TokenView, all: seq<TokenView>)
  {
    && 0 <= t.position < TotalCells
    && forall j :: 0 <= j < |all| && all[j].id != t.id && all[j].position >= 0 ==>
         Abs(t.position - all[j].position) > 6
  }

  /** The ring cell `pos` references a token of another colour. */
  predicate OpponentAt(b: BoardView, pos: int, color: Color)
    requires WellFormedBoard(b) && 0 <= pos < TotalCells
  {
    b.cells[pos].Some? && b.cells[pos].value.color != color
  }

  /** The ring cell `i` steps behind `pos` references a token of another colour. */
  predicate OpponentBehind(b: BoardView, pos: int, i: int, color: Color)
    requires WellFormedBoard(b)
  {
    OpponentAt(b, (pos - i + TotalCells) % TotalCells, color)
  }

  /** Specification of `isPositionDangerous`: unsafe, with an opponent 1..6 cells behind on the ring. */
  predicate Dangerous(pos: int, color: Color, b: BoardView)
    requires WellFormedBoard(b)
  {
    !SafePosition(pos) && exists i :: 1 <= i <= 6 && OpponentBehind(b, pos, i, color)
  }

  /** The ring cell `pos` references a token, of any colour, whose position exceeds 45. */
  predicate NearHomeAt(b: BoardView, pos: int)
    requires WellFormedBoard(b) && 0 <= pos < TotalCells
  {
    b.cells[pos].Some? && b.cells[pos].value.position > 45
  }

  /** The ring cell `i` steps ahead of `pos` references a near-home token. */
  predicate NearHomeAhead(b: BoardView, pos: int, i: int)
    requires WellFormedBoard(b)
  {
    NearHomeAt(b, (pos + i) % TotalCells)
  }

  /** Specification of `blocksOpponent`: on the ring, with a near-home token 1..6 cells ahead. */
  predicate Blocks(pos: int, b: BoardView)
    requires WellFormedBoard(b)
  {
    0 <= pos < TotalCells && exists i :: 1 <= i <= 6 && NearHomeAhead(b, pos, i)
  }

  function Abs(x: int): (r: int)
    ensures r >= 0 && (r == x || r == -x)
  {
    if x < 0 then -x else x
  }

  /** Specification of `evaluateMove`: the sum of the eight scoring terms. */
  function Score(t: TokenView, dice: int, p: PlayerView, b: BoardView): int
    requires WellFormedBoard(b)
  {
    var newPos := CalculateNewPosition(t.position, dice, p.color);
    (if CanCapture(newPos, p.color, b) then 1000 else 0)
    + (if t.position == -1 && dice == RollToStart then 500 else 0)
    + (if newPos >= TotalCells then 800 else 0)
    + (if SafePosition(newPos) then 300 else 0)
    + newPos * 10
    - (if Isolated(t, p.tokens) then 200 else 0)
    - (if Dangerous(newPos, p.color, b) then 400 else 0)
    + (if Blocks(newPos, b) then 600 else 0)
  }

  /** Specification of `getValidTokens`: the movable tokens, in token order. */
  function ValidTokens(ts: seq<TokenView>, dice: int, color: Color, b: BoardView): seq<TokenView>
    requires WellFormedBoard(b) && 0 <= dice <= DiceMax
    requires forall k :: 0 <= k < |ts| ==> TokenOk(ts[k], color)
  {
    if ts == [] then []
    else
      var last := ts[|ts| - 1];
      ValidTokens(ts[..|ts| - 1], dice, color, b) + (if CanMoveToken(last, dice, color, b) then [last] else [])
  }

  lemma {:induction false} ValidTokensExactly(ts: seq<TokenView>, dice: int, color: Color, b: BoardView)
    requires WellFormedBoard(b) && 0 <= dice <= DiceMax
    requires forall k :: 0 <= k < |ts| ==> TokenOk(ts[k], color)
    ensures forall t :: t in ValidTokens(ts, dice, color, b) <==> t in ts && TokenOk(t, color) && CanMoveToken(t, dice, color, b)
    ensures |ValidTokens(ts, dice, color, b)| <= |ts|
  {
    if ts != [] {
      ValidTokensExactly(ts[..|ts| - 1], dice, color, b);
      assert ts == ts[..|ts| - 1] + [ts[|ts| - 1]];
    }
  }

  lemma ValidTokensEmpty(ts: seq<TokenView>, dice: int, color: Color, b: BoardView)
    requires WellFormedBoard(b) && 0 <= dice <= DiceMax
    requires forall k :: 0 <= k < |ts| ==> TokenOk(ts[k], color)
    ensures ValidTokens(ts, dice, color, b) == [] <==> forall k :: 0 <= k < |ts| ==> !CanMoveToken(ts[k], dice, color, b)
  {
    ValidTokensExactly(ts, dice, color, b);
    if ValidTokens(ts, dice, color, b) != [] {
      var t := ValidTokens(ts, dice, color, b)[0];
      assert t in ValidTokens(ts, dice, color, b);
    }
  }

  method IsSafePosition(pos: int) returns (safe: bool)
    ensures safe == SafePosition(pos)
  {
    if pos < 0 || pos >= TotalCells {
      return true;
    }
    var i := 0;
    while i < |SafePositions|
      invariant 0 <= i <= |SafePositions|
      invariant pos !in SafePositions[..i]
    {
      if pos == SafePositions[i] {
        return true;
      }
      i := i + 1;
    }
    assert SafePositions[..i] == SafePositions;
    return false;
  }

  method IsTokenIsolated(t: TokenView, all: seq<TokenView>) returns (isolated: bool)
    ensures isolated == Isolated(t, all)
  {
    if t.position < 0 || t.position >= TotalCells {
      return false;
    }
    var j := 0;
    while j < |all|
      invariant 0 <= j <= |all|
      invariant forall j' :: 0 <= j' < j && all[j'].id != t.id && all[j'].position >= 0 ==>
                  Abs(t.position - all[j'].position) > 6
    {
      var other := all[j];
      if other.id != t.id && other.position >= 0 {
        var distance := Abs(t.position - other.position);
        if distance <= 6 {
          return false;
        }
      }
      j := j + 1;
    }
    return true;
  }

  method IsPositionDangerous(pos: int, color: Color, b: BoardView) returns (dangerous: bool)
    requires WellFormedBoard(b)
    ensures dangerous == Dangerous(pos, color, b)
  {
    var safe := IsSafePosition(pos);
    if safe {
      return false;
    }
    var i := 1;
    while i <= 6
      invariant 1 <= i <= 7
      invariant forall i' :: 1 <= i' < i ==> !OpponentBehind(b, pos, i', color)
    {
      var checkPos := (pos - i + TotalCells) % TotalCells;
      var cell := b.cells[checkPos];
      if cell.Some? && cell.value.color != color {
        assert OpponentBehind(b, pos, i, color);
        return true;
      }
      i := i + 1;
    }
    return false;
  }

  method BlocksOpponent(pos: int, b: BoardView) returns (blocks: bool)
    requires WellFormedBoard(b)
    ensures blocks == Blocks(pos, b)
  {
    if pos < 0 || pos >= TotalCells {
      return false;
    }
    var i := 1;
    while i <= 6
      invariant 1 <= i <= 7
      invariant forall i' :: 1 <= i' < i ==> !NearHomeAhead(b, pos, i')
    {
      var checkPos := (pos + i) % TotalCells;
      var cell := b.cells[checkPos];
      if cell.Some? && cell.value.position > 45 {
        assert NearHomeAhead(b, pos, i);
        return true;
      }
      i := i + 1;
    }
    return false;
  }

  method EvaluateMove(t: TokenView, dice: int, p: PlayerView, b: BoardView) returns (score: int)
    requires WellFormedBoard(b)
    ensures score == Score(t, dice, p, b)
  {
    score := 0;
    var newPos := CalculateNewPosition(t.position, dice, p.color);
    if CanCapture(newPos, p.color, b) {
      score := score + 1000;
    }
    if t.position == -1 && dice == RollToStart {
      score := score + 500;
    }
    if newPos >= TotalCells {
      score := score + 800;
    }
    var safe := IsSafePosition(newPos);
    if safe {
      score := score + 300;
    }
    score := score + newPos * 10;
    var isolated := IsTokenIsolated(t, p.tokens);
    if isolated {
      score := score - 200;
    }
    var dangerous := IsPositionDangerous(newPos, p.color, b);
    if dangerous {
      score := score - 400;
    }
    var blocks := BlocksOpponent(newPos, b);
    if blocks {
      score := score + 600;
    }
  }

  method GetValidTokens(p: PlayerView, dice: int, b: BoardView) returns (valid: seq<TokenView>)
    requires WellFormedBoard(b) && PlayerOk(p) && 0 <= dice <= DiceMax
    ensures valid == ValidTokens(p.tokens, dice, p.color, b)
  {
    valid := [];
    var k := 0;
    while k < |p.tokens|
      invariant 0 <= k <= |p.tokens|
      invariant valid == ValidTokens(p.tokens[..k], dice, p.color, b)
    {
      assert p.tokens[..k + 1][..k] == p.tokens[..k];
      if CanMoveToken(p.tokens[k], dice, p.color, b) {
        valid := valid + [p.tokens[k]];
      }
      k := k + 1;
    }
    assert p.tokens[..k] == p.tokens;
  }

  /** Easy's pick: none exactly when nothing can move, otherwise some movable token. */
  ghost predicate EasyChoice(valid: seq<TokenView>, r: Option<TokenView>)
  {
    (r.None? <==> valid == []) && (r.Some? ==> r.value in valid)
  }

  /** The move of `t` lands on a capture. */
  predicate Captures(t: TokenView, dice: int, color: Color, b: BoardView)
    requires WellFormedBoard(b)
  {
    CanCapture(CalculateNewPosition(t.position, dice, color), color, b)
  }

  /**
   * Medium's pick: the first movable token that captures; else, on a 6, the
   * first movable token in base; else the first movable token with the
   * highest current position.
   */
  ghost predicate MediumChoice(valid: seq<TokenView>, dice: int, color: Color, b: BoardView, r: Option<TokenView>)
    requires WellFormedBoard(b)
  {
    && (r.None? <==> valid == [])
    && (r.Some? ==> r.value in valid)
    && ((exists k :: 0 <= k < |valid| && Captures(valid[k], dice, color, b)) ==>
          exists k :: 0 <= k < |valid| && r == Some(valid[k]) && Captures(valid[k], dice, color, b)
                      && forall j :: 0 <= j < k ==> !Captures(valid[j], dice, color, b))
    && ((forall k :: 0 <= k < |valid| ==> !Captures(valid[k], dice, color, b))
        && dice == RollToStart && (exists k :: 0 <= k < |valid| && valid[k].position == -1) ==>
          exists k :: 0 <= k < |valid| && r == Some(valid[k]) && valid[k].position == -1
                      && forall j :: 0 <= j < k ==> valid[j].position != -1)
    && ((forall k :: 0 <= k < |valid| ==> !Captures(valid[k], dice, color, b))
        && (dice != RollToStart || forall k :: 0 <= k < |valid| ==> valid[k].position != -1)
        && valid != [] ==>
          exists k :: 0 <= k < |valid| && r == Some(valid[k])
                      && (forall j :: 0 <= j < |valid| ==> valid[j].position <= valid[k].position)
                      && (forall j :: 0 <= j < k ==> valid[j].position < valid[k].position))
  }

  /** Hard's pick: the first movable token, in token order, with the highest score. */
  ghost predicate HardChoice(valid: seq<TokenView>, dice: int, p: PlayerView, b: BoardView, r: Option<TokenView>)
    requires WellFormedBoard(b)
  {
    && (r.None? <==> valid == [])
    && (r.Some? ==>
          exists k :: 0 <= k < |valid| && r.value == valid[k]
                      && (forall j :: 0 <= j < |valid| ==> Score(valid[j], dice, p, b) <= Score(valid[k], dice, p, b))
                      && (forall j :: 0 <= j < k ==> Score(valid[j], dice, p, b) < Score(valid[k], dice, p, b)))
  }

  method SelectTokenEasy(p: PlayerView, dice: int, b: BoardView) returns (r: Option<TokenView>)
    requires WellFormedBoard(b) && PlayerOk(p) && 0 <= dice <= DiceMax
    ensures EasyChoice(ValidTokens(p.tokens, dice, p.color, b), r)
  {
    var valid := GetValidTokens(p, dice, b);
    if |valid| == 0 {
      return None;
    }
    var i :| 0 <= i < |valid|;
    return Some(valid[i]);
  }

  /** Medium's first scan: the first candidate whose move captures, or -1. */
  method FirstCapture(valid: seq<TokenView>, dice: int, color: Color, b: BoardView) returns (i: int)
    requires WellFormedBoard(b)
    ensures -1 <= i < |valid|
    ensures i >= 0 ==> Captures(valid[i], dice, color, b)
    ensures forall j :: 0 <= j < |valid| && (i == -1 || j < i) ==> !Captures(valid[j], dice, color, b)
  {
    i := 0;
    while i < |valid|
      invariant 0 <= i <= |valid|
      invariant forall j :: 0 <= j < i ==> !Captures(valid[j], dice, color, b)
    {
      var newPos := CalculateNewPosition(valid[i].position, dice, color);
      if CanCapture(newPos, color, b) {
        return;
      }
      i := i + 1;
    }
    i := -1;
  }

  /** Medium's second scan: the first candidate in base, or -1. */
  method FirstInBase(valid: seq<TokenView>) returns (i: int)
    ensures -1 <= i < |valid|
    ensures i >= 0 ==> valid[i].position == -1
    ensures forall j :: 0 <= j < |valid| && (i == -1 || j < i) ==> valid[j].position != -1
  {
    i := 0;
    while i < |valid|
      invariant 0 <= i <= |valid|
      invariant forall j :: 0 <= j < i ==> valid[j].position != -1
    {
      if valid[i].position == -1 {
        return;
      }
      i := i + 1;
    }
    i := -1;
  }

  /**
   * Medium's last scan: the first candidate with the highest position above
   * -1 (the running maximum starts at -1), or -1 when there is none.
   */
  method Furthest(valid: seq<TokenView>) returns (i: int)
    ensures -1 <= i < |valid|
    ensures i == -1 <==> forall j :: 0 <= j < |valid| ==> valid[j].position <= -1
    ensures i >= 0 ==>
              && (forall j :: 0 <= j < |valid| ==> valid[j].position <= valid[i].position)
              && (forall j :: 0 <= j < i ==> valid[j].position < valid[i].position)
  {
    i := -1;
    var maxPos := -1;
    var k := 0;
    while k < |valid|
      invariant 0 <= k <= |valid|
      invariant -1 <= i < k
      invariant i == -1 ==> maxPos == -1
      invariant i >= 0 ==> maxPos == valid[i].position && maxPos > -1
      invariant forall j :: 0 <= j < k ==> valid[j].position <= maxPos
      invariant i >= 0 ==> forall j :: 0 <= j < i ==> valid[j].position < maxPos
    {
      if valid[k].position > maxPos {
        maxPos := valid[k].position;
        i := k;
      }
      k := k + 1;
    }
  }

  method SelectTokenMedium(p: PlayerView, dice: int, b: BoardView) returns (r: Option<TokenView>)
    requires WellFormedBoard(b) && PlayerOk(p) && 0 <= dice <= DiceMax
    ensures MediumChoice(ValidTokens(p.tokens, dice, p.color, b), dice, p.color, b, r)
  {
    var valid := GetValidTokens(p, dice, b);
    ValidTokensExactly(p.tokens, dice, p.color, b);
    if |valid| == 0 {
      return None;
    }
    var i := FirstCapture(valid, dice, p.color, b);
    if i >= 0 {
      return Some(valid[i]);
    }
    if dice == RollToStart {
      i := FirstInBase(valid);
      if i >= 0 {
        return Some(valid[i]);
      }
    }
    // Every remaining candidate is off base: a base token is only movable on a 6.
    assert valid[0].position >= 0 by {
      assert valid[0] in valid;
    }
    i := Furthest(valid);
    return Some(valid[i]);
  }

  method SelectTokenHard(p: PlayerView, dice: int, b: BoardView) returns (r: Option<TokenView>)
    requires WellFormedBoard(b) && PlayerOk(p) && 0 <= dice <= DiceMax
    ensures HardChoice(ValidTokens(p.tokens, dice, p.color, b), dice, p, b, r)
  {
    var valid := GetValidTokens(p, dice, b);
    if |valid| == 0 {
      return None;
    }
    var scores: seq<int> := [];
    var k := 0;
    while k < |valid|
      invariant 0 <= k <= |valid| && |scores| == k
      invariant forall j :: 0 <= j < k ==> scores[j] == Score(valid[j], dice, p, b)
    {
      var s := EvaluateMove(valid[k], dice, p, b);
      scores := scores + [s];
      k := k + 1;
    }
    var best := 0;
    k := 1;
    while k < |valid|
      invariant 1 <= k <= |valid| && 0 <= best < k
      invariant forall j :: 0 <= j < k ==> scores[j] <= scores[best]
      invariant forall j :: 0 <= j < best ==> scores[j] < scores[best]
    {
      if scores[k] > scores[best] {
        best := k;
      }
      k := k + 1;
    }
    return Some(valid[best]);
  }

  /** `SelectToken`: dispatch on the level tag; an unknown tag plays as medium. */
  method SelectToken(level: string, p: PlayerView, dice: int, b: BoardView) returns (r: Option<TokenView>)
    requires WellFormedBoard(b) && PlayerOk(p) && 0 <= dice <= DiceMax
    ensures level == "easy" ==> EasyChoice(ValidTokens(p.tokens, dice, p.color, b), r)
    ensures level == "hard" ==> HardChoice(ValidTokens(p.tokens, dice, p.color, b), dice, p, b, r)
    ensures level != "easy" && level != "hard" ==> MediumChoice(ValidTokens(p.tokens, dice, p.color, b), dice, p.color, b, r)
  {
    if level == "easy" {
      r := SelectTokenEasy(p, dice, b);
    } else if level == "medium" {
      r := SelectTokenMedium(p, dice, b);
    } else if level == "hard" {
      r := SelectTokenHard(p, dice, b);
    } else {
      r := SelectTokenMedium(p, dice, b);
    }
  }
}
