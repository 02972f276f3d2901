/**
 * How the scripted opponent's reading of the rules (pkg/ai/ai.go) relates to
 * the engine's (internal/server/game/engine.go): both share the destination
 * arithmetic, and over a snapshot that mirrors the engine's board they agree
 * on which tokens may move, except for leaving base onto one's own token.
 */
module Agreement {
  import opened Wrappers
  import opened Constants
  import opened Models
  import Game
  import Ai

  /** The snapshot of a token the opponent reads. */
  function ViewOf(t: Token): (v: Ai.TokenView)
    reads t
    ensures v.id == t.id && v.color == t.color && v.position == t.position && v.isHome == t.isHome
  {
    Ai.TokenView(t.id, t.color, t.position, t.isHome)
  }

  /** `view` is a faithful snapshot of board b: same occupants, same safe marks, same stretches. */
  ghost predicate Mirrors(b: Board, view: Ai.BoardView)
    reads b.cells, b.safe, b.stretches, b.CellTokens(), b.StretchTokens()
    requires b.Shaped()
  {
    && Ai.WellFormedBoard(view)
    && (forall i :: 0 <= i < TotalCells ==> view.safe[i] == b.safe[i])
    && (forall i :: 0 <= i < TotalCells ==>
          && (view.cells[i].Some? <==> b.cells[i] != null)
          && (b.cells[i] != null ==> view.cells[i].value == ViewOf(b.cells[i])))
    && (forall r, k :: 0 <= r < |Colors| && 0 <= k < HomeCells ==>
          && (view.stretches[Colors[r]][k].Some? <==> b.stretches[r, k] != null)
          && (b.stretches[r, k] != null ==> view.stretches[Colors[r]][k].value == ViewOf(b.stretches[r, k])))
  }

  /** The opponent computes destinations exactly as the engine does. */
  lemma SameDestination(pos: int, dice: int, c: Color)
    ensures Ai.CalculateNewPosition(pos, dice, c) == Game.CalculateNewPosition(pos, dice, c)
  {
  }

  /**
   * The opponent's capture test reads, on a faithful snapshot, the same
   * condition under which the engine's capture check sends a token back to base.
   */
  lemma CaptureAgrees(e: Game.Engine, pos: int, c: Color, view: Ai.BoardView)
    requires e.board.Valid() && Mirrors(e.board, view)
    ensures Ai.CanCapture(pos, c, view) <==>
              0 <= pos < TotalCells && e.board.cells[pos] != null && !e.board.safe[pos]
              && e.board.cells[pos].color != c
  {
  }

  /**
   * For a token already out of base, the opponent and the engine agree on
   * whether it may move: a stretch cell the engine requires empty can, on a
   * consistent board, only hold a token of the mover's own colour, which is
   * what the opponent tests.
   */
  lemma MovableAgreesOffBase(e: Game.Engine, t: Token, dice: int, c: Color, view: Ai.BoardView)
    requires e.board.Valid() && Mirrors(e.board, view)
    requires 0 <= t.position <= LastPosition && (c == NoColor ==> t.position < TotalCells)
    requires 0 <= dice <= DiceMax
    ensures e.CanMoveToken(t, dice, c) == Ai.CanMoveToken(ViewOf(t), dice, c, view)
  {
    var newPos := Game.CalculateNewPosition(t.position, dice, c);
    Game.CalculateNewPositionRange(t.position, dice, c);
    SameDestination(t.position, dice, c);
    if !t.isHome && TotalCells <= newPos <= LastPosition {
      var r := ColorIndex(c);
      var k := newPos - TotalCells;
      assert view.stretches[Colors[r]][k].Some? <==> e.board.stretches[r, k] != null;
      if e.board.stretches[r, k] != null {
        assert view.stretches[c][k].value.color == c;
      }
    } else if !t.isHome && 0 <= newPos < TotalCells {
      assert view.cells[newPos].Some? <==> e.board.cells[newPos] != null;
    }
  }

  /**
   * Leaving base is where they part: with a 6, the opponent always counts a
   * base token as movable, while the engine refuses when a token of the
   * same colour already stands on the entry cell.
   */
  lemma BaseExitDiverges(e: Game.Engine, t: Token, dice: int, c: Color, view: Ai.BoardView)
    requires e.board.Valid() && Mirrors(e.board, view)
    requires t.position == -1 && 0 <= dice <= DiceMax
    ensures Ai.CanMoveToken(ViewOf(t), dice, c, view) <==> !t.isHome && dice == RollToStart
    ensures e.CanMoveToken(t, dice, c) <==>
              && Ai.CanMoveToken(ViewOf(t), dice, c, view)
              && !(e.board.cells[StartingPosition(c)] != null && e.board.cells[StartingPosition(c)].color == c)
  {
  }
}
