/**
 * A live room (internal/server/room/room.go): the shared room record, the
 * engine created when the game starts, and the connections of the humans
 * who joined. Each method is one step under the room's mutex; the message
 * channel, the run loop and the engine callbacks' transport are not part of
 * this model.
 */
module Rooms {
  import opened Wrappers
  import opened Constants
  import opened Models
  import Game

  datatype RoomError = RoomFull | AlreadyInRoom | NotInRoom | GameAlreadyStarted | EngineRefused(reason: Game.EngineError)

  /** A human's connection (`PlayerConnection`; the join time is left out). */
  datatype Connection = Connection(playerId: int, username: string, ready: bool)

  /** Some player of ps has colour c. */
  predicate ColorTaken(ps: seq<Player>, c: Color)
  {
    exists i :: 0 <= i < |ps| && ps[i].color == c
  }

  /**
   * The colour a newcomer gets: the first of red, blue, green, yellow that
   * no player has, or the zero colour when all four are taken.
   */
  method PickColor(ps: seq<Player>) returns (c: Color)
    ensures c == NoColor <==> forall r :: 0 <= r < |Colors| ==> ColorTaken(ps, Colors[r])
    ensures c != NoColor ==> !ColorTaken(ps, c) && forall r :: 0 <= r < ColorIndex(c) ==> ColorTaken(ps, Colors[r])
  {
    var used: set<Color> := {};
    var i := 0;
    while i < |ps|
      invariant 0 <= i <= |ps|
      invariant forall d :: d in used <==> exists j :: 0 <= j < i && ps[j].color == d
    {
      used := used + {ps[i].color};
      i := i + 1;
    }
    c := NoColor;
    var r := 0;
    while r < |Colors|
      invariant 0 <= r <= |Colors|
      invariant forall q :: 0 <= q < r ==> Colors[q] in used
    {
      if Colors[r] !in used {
        c := Colors[r];
        assert ColorIndex(c) == r;
        return;
      }
      r := r + 1;
    }
  }

  /** Index of the first player of ps with id `id`, or -1. */
  function FirstIndex(ps: seq<Player>, id: int): (i: int)
    ensures -1 <= i < |ps|
    ensures i >= 0 ==> ps[i].id == id && forall j :: 0 <= j < i ==> ps[j].id != id
    ensures i == -1 ==> forall j :: 0 <= j < |ps| ==> ps[j].id != id
  {
    if ps == [] then -1
    else if ps[0].id == id then 0
    else
      var r := FirstIndex(ps[1..], id);
      if r == -1 then -1 else r + 1
  }

  /** The scan of the roster that `RemovePlayer` and `SetPlayerReady` run. */
  method IndexOf(ps: seq<Player>, id: int) returns (i: int)
    ensures i == FirstIndex(ps, id)
  {
    i := 0;
    while i < |ps|
      invariant 0 <= i <= |ps|
      invariant forall j :: 0 <= j < i ==> ps[j].id != id
    {
      if ps[i].id == id {
        return;
      }
      i := i + 1;
    }
    i := -1;
  }

  /** The roster ps with its first seat of id `id` spliced out, the others kept in order. */
  function WithoutFirst(ps: seq<Player>, id: int): seq<Player>
  {
    var i := FirstIndex(ps, id);
    if i == -1 then ps else ps[..i] + ps[i + 1..]
  }

  /** Some player of ps has id `id`. */
  predicate Seated(ps: seq<Player>, id: int)
  {
    exists i :: 0 <= i < |ps| && ps[i].id == id
  }

  /** The ids seated in ps. */
  function SeatedIds(ps: seq<Player>): set<int>
  {
    set i | 0 <= i < |ps| :: ps[i].id
  }

  lemma {:induction false} SeatedIdsBound(ps: seq<Player>)
    ensures |SeatedIds(ps)| <= |ps|
  {
    if ps != [] {
      var rest := ps[..|ps| - 1];
      SeatedIdsBound(rest);
      assert SeatedIds(ps) == SeatedIds(rest) + {ps[|ps| - 1].id} by {
        forall x | x in SeatedIds(ps) ensures x in SeatedIds(rest) + {ps[|ps| - 1].id} {
          var i :| 0 <= i < |ps| && ps[i].id == x;
          if i < |ps| - 1 {
            assert rest[i].id == x;
          }
        }
      }
    }
  }

  /** Splicing out seat i keeps every other seated id. */
  lemma SpliceKeepsOthers(ps: seq<Player>, i: int, id: int)
    requires 0 <= i < |ps| && Seated(ps, id) && ps[i].id != id
    ensures Seated(ps[..i] + ps[i + 1..], id)
  {
    var j :| 0 <= j < |ps| && ps[j].id == id;
    var qs := ps[..i] + ps[i + 1..];
    if j < i {
      assert qs[j] == ps[j];
    } else {
      assert qs[j - 1] == ps[j];
    }
  }

  /** Splicing out seat i keeps every remaining seat's tokens well formed. */
  lemma SpliceKeepsWellFormed(ps: seq<Player>, i: int, qs: seq<Player>)
    requires 0 <= i < |ps| && qs == ps[..i] + ps[i + 1..]
    requires forall j :: 0 <= j < |ps| ==> TokensWellFormed(ps[j])
    ensures forall j :: 0 <= j < |qs| ==> TokensWellFormed(qs[j])
  {
    forall j | 0 <= j < |qs|
      ensures TokensWellFormed(qs[j])
    {
      if j < i {
        assert qs[j] == ps[j];
      } else {
        assert qs[j] == ps[j + 1];
      }
    }
  }

  class Room {
    const model: RoomModel
    var engine: Game.Engine?
    var conns: map<int, Connection>

    constructor (model: RoomModel, conns: map<int, Connection>)
      ensures this.model == model && this.conns == conns && engine == null
    {
      this.model := model;
      this.conns := conns;
      engine := null;
    }

    /** Every connection is keyed by its own id and belongs to a seated player; an engine plays this room. */
    ghost predicate Valid()
      reads this, model
    {
      && (forall id :: id in conns ==> conns[id].playerId == id && Seated(model.players, id))
      && (engine != null ==> engine.room == model)
    }

    /** The tokens of every seat. */
    ghost function SeatTokens(): set<object>
      reads model`players
    {
      set i, k | 0 <= i < |model.players| && 0 <= k < |model.players[i].tokens| :: model.players[i].tokens[k]
    }

    /**
     * What an engine needs of the room it plays: every seat holds four
     * well-formed tokens of its colour, as `NewPlayer` makes them, and the
     * last die is 0 (never rolled) or a face.
     */
    ghost predicate Playable()
      reads model`players, model`lastDice, SeatTokens()
    {
      && (forall i :: 0 <= i < |model.players| ==> TokensWellFormed(model.players[i]))
      && 0 <= model.lastDice <= DiceMax
    }

    /**
     * `AddPlayer`: refuses a full room, then an id already connected;
     * otherwise seats a fresh player with the first free colour at the end of
     * the roster and connects it, not ready.
     */
    method AddPlayer(playerId: int, username: string) returns (err: Option<RoomError>)
      requires Valid()
      modifies this`conns, model`players
      ensures Valid()
      ensures old(Playable()) ==> Playable()
      ensures old(|model.players|) >= model.maxPlayers ==> err == Some(RoomFull)
      ensures old(|model.players|) < model.maxPlayers && playerId in old(conns) ==> err == Some(AlreadyInRoom)
      ensures err.Some? ==> model.players == old(model.players) && conns == old(conns)
      ensures err.None? <==> old(|model.players|) < model.maxPlayers && playerId !in old(conns)
      ensures err.None? ==>
                && conns == old(conns)[playerId := Connection(playerId, username, false)]
                && |model.players| == old(|model.players|) + 1
                && model.players[..|model.players| - 1] == old(model.players)
      ensures err.None? ==>
                var p := model.players[|model.players| - 1];
                && fresh(p) && p.id == playerId && p.username == username
                && PlayerWellFormed(p) && !p.isReady && !p.isAI
                && (p.color == NoColor <==> forall r :: 0 <= r < |Colors| ==> ColorTaken(old(model.players), Colors[r]))
                && (p.color != NoColor ==>
                      !ColorTaken(old(model.players), p.color)
                      && forall r :: 0 <= r < ColorIndex(p.color) ==> ColorTaken(old(model.players), Colors[r]))
    {
      if |model.players| >= model.maxPlayers {
        return Some(RoomFull);
      }
      if playerId in conns {
        return Some(AlreadyInRoom);
      }
      var color := PickColor(model.players);
      var player := NewPlayer(playerId, username, color);
      model.players := model.players + [player];
      conns := conns[playerId := Connection(playerId, username, false)];
      assert model.players[|model.players| - 1].id == playerId;
      assert model.players[..|model.players| - 1] == old(model.players);
      return None;
    }

    /**
     * `RemovePlayer`: drops the connection and splices out the first seat
     * with that id, keeping the others in order; a departing host hands the
     * room to the new first seat. An engine already playing the room keeps
     * its turn index, which may now be out of range.
     */
    method RemovePlayer(playerId: int)
      requires Valid()
      modifies this`conns, model`players, model`hostId
      ensures Valid()
      ensures old(Playable()) ==> Playable()
      ensures conns == old(conns) - {playerId}
      ensures model.players == WithoutFirst(old(model.players), playerId)
      ensures old(model.hostId) == playerId && |model.players| > 0 ==> model.hostId == model.players[0].id
      ensures !(old(model.hostId) == playerId && |model.players| > 0) ==> model.hostId == old(model.hostId)
    {
      Unseat(playerId);
      HandOver(playerId);
    }

    /** The host half of `RemovePlayer`: a departing host hands the room to the first remaining seat. */
    method HandOver(playerId: int)
      modifies model`hostId
      ensures old(model.hostId) == playerId && |model.players| > 0 ==> model.hostId == model.players[0].id
      ensures !(old(model.hostId) == playerId && |model.players| > 0) ==> model.hostId == old(model.hostId)
    {
      if model.hostId == playerId && |model.players| > 0 {
        model.hostId := model.players[0].id;
      }
    }

    /**
     * The seat half of `RemovePlayer`: the connection is dropped and the first
     * seat with the id is spliced out, the others kept in order.
     */
    method Unseat(playerId: int)
      requires Valid()
      modifies this`conns, model`players
      ensures Valid()
      ensures old(Playable()) ==> Playable()
      ensures conns == old(conns) - {playerId}
      ensures model.players == WithoutFirst(old(model.players), playerId)
    {
      conns := conns - {playerId};
      var i := IndexOf(model.players, playerId);
      if i != -1 {
        var rest := model.players[..i] + model.players[i + 1..];
        forall id | id in conns
          ensures Seated(rest, id)
        {
          SpliceKeepsOthers(model.players, i, id);
        }
        if Playable() {
          SpliceKeepsWellFormed(model.players, i, rest);
        }
        model.players := rest;
      }
    }

    /**
     * `SetPlayerReady`: refuses an id with no connection; otherwise sets the
     * connection's flag and the first seat with that id.
     */
    method SetPlayerReady(playerId: int, ready: bool) returns (err: Option<RoomError>)
      requires Valid()
      modifies this`conns, model.players
      ensures Valid()
      ensures old(Playable()) ==> Playable()
      ensures playerId !in old(conns) ==> err == Some(NotInRoom) && conns == old(conns)
      ensures playerId in old(conns) ==>
                err == None && conns == old(conns)[playerId := old(conns[playerId]).(ready := ready)]
      ensures forall j :: 0 <= j < |model.players| ==>
                var p := model.players[j];
                var i := FirstIndex(model.players, playerId);
                && p.isReady == (if playerId in old(conns) && i >= 0 && p == model.players[i] then ready else old(p.isReady))
                && p.tokensAtHome == old(p.tokensAtHome) && p.isAI == old(p.isAI) && p.aiLevel == old(p.aiLevel)
                && p.isConnected == old(p.isConnected) && p.consecutiveSix == old(p.consecutiveSix)
    {
      if playerId !in conns {
        return Some(NotInRoom);
      }
      conns := conns[playerId := conns[playerId].(ready := ready)];
      var i := IndexOf(model.players, playerId);
      if i != -1 {
        model.players[i].isReady := ready;
      }
      return None;
    }

    /** `CanStart`: at least two seats, and every connection is ready (seats without a connection are not asked). */
    method CanStart() returns (ok: bool)
      ensures ok <==> |model.players| >= MinPlayers && forall c :: c in conns.Values ==> c.ready
    {
      if |model.players| < MinPlayers {
        return false;
      }
      var pending := conns.Values;
      while pending != {}
        invariant pending <= conns.Values
        invariant forall c :: c in conns.Values && c !in pending ==> c.ready
        decreases |pending|
      {
        var c :| c in pending;
        if !c.ready {
          return false;
        }
        pending := pending - {c};
      }
      return true;
    }

    /**
     * `Start`: refuses a game past the waiting state; creates the engine on
     * first use, passes on its refusal, and otherwise leaves the room playing.
     */
    method Start() returns (err: Option<RoomError>)
      requires Valid() && Playable()
      requires engine != null ==> engine.Valid()
      modifies this`engine, model`currentTurn, model`state, (if engine == null then {} else {engine})`events
      ensures Valid() && (engine != null ==> engine.Valid())
      ensures old(model.state) != Waiting ==>
                err == Some(GameAlreadyStarted) && engine == old(engine) && unchanged(model)
      ensures old(model.state) == Waiting ==>
                && engine != null
                && (old(engine) == null ==> fresh(engine))
                && (old(engine) != null ==> engine == old(engine))
      ensures old(model.state) == Waiting && |model.players| < MinPlayers ==>
                err == Some(EngineRefused(Game.NotEnoughPlayers)) && model.state == Waiting
      ensures old(model.state) == Waiting && |model.players| >= MinPlayers ==>
                err == None && model.state == Playing && 0 <= model.currentTurn < |model.players|
      ensures old(model.state) == Waiting && old(engine) == null ==>
                && fresh(engine.board) && engine.board.Empty()
                && engine.rollCount.Keys == (set i | 0 <= i < |model.players| :: model.players[i].id)
                && (forall id :: id in engine.rollCount ==> engine.rollCount[id] == 0)
                && engine.history == [] && engine.winner == null && engine.rankings == []
      ensures old(engine) != null ==>
                && engine.rollCount == old(engine.rollCount) && engine.history == old(engine.history)
                && engine.winner == old(engine.winner) && engine.rankings == old(engine.rankings)
      ensures old(model.state) == Waiting ==>
                var before := if old(engine) == null then [] else old(engine.events);
                engine.events == before + (if err == None then [Game.TurnChanged(model.players[model.currentTurn].id)] else [])
    {
      if model.state != Waiting {
        return Some(GameAlreadyStarted);
      }
      Prepare();
      var refusal := engine.Start();
      if refusal.Some? {
        return Some(EngineRefused(refusal.value));
      }
      model.state := Playing;
      return None;
    }

    /** The engine is created on first use, with a fresh board and zero roll counts. */
    method Prepare()
      requires Valid() && Playable()
      requires engine != null ==> engine.Valid()
      modifies this`engine
      ensures Valid() && engine != null && engine.Valid()
      ensures old(engine) != null ==> engine == old(engine)
      ensures old(engine) == null ==>
                && fresh(engine) && fresh(engine.board) && engine.board.Empty()
                && engine.rollCount.Keys == (set i | 0 <= i < |model.players| :: model.players[i].id)
                && (forall id :: id in engine.rollCount ==> engine.rollCount[id] == 0)
                && engine.history == [] && engine.winner == null && engine.rankings == [] && engine.events == []
    {
      if engine == null {
        engine := new Game.Engine(model);
      }
    }

    /** `IsEmpty`: no human is connected, whatever the roster holds. */
    function IsEmpty(): (empty: bool)
      reads this
      ensures empty <==> conns == map[]
    {
      |conns| == 0
    }

    /** `GetPlayerCount`: the connected humans, which never outnumber the seats. */
    function PlayerCount(): (n: nat)
      reads this, model
      ensures n == 0 <==> IsEmpty()
      ensures n == |conns.Keys|
      ensures Valid() ==> n <= |model.players|
    {
      CountBounded();
      |conns|
    }

    /** In a consistent room every connection has a seat, so connections never outnumber seats. */
    lemma CountBounded()
      ensures Valid() ==> |conns| <= |model.players|
    {
      if Valid() {
        assert conns.Keys <= SeatedIds(model.players) by {
          forall id | id in conns ensures id in SeatedIds(model.players) {
            var i :| 0 <= i < |model.players| && model.players[i].id == id;
          }
        }
        SeatedIdsBound(model.players);
        SubsetCard(conns.Keys, SeatedIds(model.players));
      }
    }
  }

  lemma SubsetCard<T>(a: set<T>, b: set<T>)
    requires a <= b
    ensures |a| <= |b|
  {
    assert b == a + (b - a);
  }
}
