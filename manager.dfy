/**
 * The room registry (internal/server/room/manager.go): live rooms by id,
 * with creation, lookup, joining, leaving, the public listing and the sweep
 * of empty rooms. Room ids come from the clock in the program; here the
 * caller supplies them.
 */
module Registry {
  import opened Wrappers
  import opened Constants
  import opened Models
  import opened Rooms

  datatype RegistryError = RoomNotFound | Refused(reason: RoomError)

  /** A room `ListRooms` shows: public and still waiting for players. */
  predicate Listed(m: RoomModel)
    reads m
  {
    !m.isPrivate && m.state == Waiting
  }

  /** The rooms of rs that still have a connection. */
  function NonEmpty(rs: map<string, Room>): (kept: map<string, Room>)
    reads set id | id in rs :: rs[id]
    ensures kept.Keys <= rs.Keys
    ensures forall id :: id in kept ==> kept[id] == rs[id] && !kept[id].IsEmpty()
    ensures forall id :: id in rs && !rs[id].IsEmpty() ==> id in kept
  {
    map id | id in rs && !rs[id].IsEmpty() :: rs[id]
  }

  /** A second sweep finds nothing more to remove. */
  lemma SweepIdempotent(rs: map<string, Room>)
    ensures NonEmpty(NonEmpty(rs)) == NonEmpty(rs)
  {
    var once := NonEmpty(rs);
    assert forall id :: id in NonEmpty(once) <==> id in once;
  }

  /**
   * A sweep never adds rooms, and leaves the count unchanged exactly when
   * no registered room is empty.
   */
  lemma SweepShrinks(rs: map<string, Room>)
    ensures |NonEmpty(rs)| <= |rs|
    ensures |NonEmpty(rs)| == |rs| <==> forall id :: id in rs ==> !rs[id].IsEmpty()
  {
    var kept := NonEmpty(rs);
    SubsetCard(kept.Keys, rs.Keys);
    if forall id :: id in rs ==> !rs[id].IsEmpty() {
      assert kept.Keys == rs.Keys;
    } else {
      var id :| id in rs && rs[id].IsEmpty();
      SubsetCard(kept.Keys, rs.Keys - {id});
      assert |rs.Keys - {id}| == |rs| - 1;
    }
  }

  /** The room `CreateRoom` registers: a waiting record whose only seat and only connection are the host's, in red. */
  method OpenRoom(name: string, hostId: int, hostName: string, maxPlayers: int, gameMode: string, isPrivate: bool, roomId: string)
    returns (room: Room)
    ensures fresh(room) && fresh(room.model) && room.Valid()
    ensures room.model.id == roomId && room.model.name == name && room.model.hostId == hostId
    ensures room.model.maxPlayers == maxPlayers && room.model.gameMode == gameMode && room.model.isPrivate == isPrivate
    ensures room.model.state == Waiting && room.engine == null
    ensures |room.model.players| == 1
    ensures var host := room.model.players[0];
              host.id == hostId && host.username == hostName && host.color == Red && PlayerWellFormed(host)
    ensures room.conns == map[hostId := Connection(hostId, hostName, false)]
    ensures room.model.lastDice == 0 && room.Playable()
  {
    var model := new RoomModel(roomId, name, hostId, maxPlayers, gameMode, isPrivate);
    var host := NewPlayer(hostId, hostName, Red);
    model.players := model.players + [host];
    room := new Room(model, map[hostId := Connection(hostId, hostName, false)]);
    assert Seated(model.players, hostId) by {
      assert model.players[0].id == hostId;
    }
  }

  class Manager {
    var rooms: map<string, Room>

    constructor ()
      ensures rooms == map[]
    {
      rooms := map[];
    }

    ghost function Live(): set<object>
      reads this
    {
      (set id | id in rooms :: rooms[id]) + (set id | id in rooms :: rooms[id].model)
    }

    /** Every registered room is consistent, and two different rooms never share a room record. */
    ghost predicate Valid()
      reads this, Live()
    {
      && (forall id :: id in rooms ==> rooms[id].Valid())
      && (forall a, b :: a in rooms && b in rooms && rooms[a] != rooms[b] ==> rooms[a].model != rooms[b].model)
    }

    /**
     * `CreateRoom`: registers, under `roomId`, a waiting room whose only
     * seat and only connection are the host's, in red. The requested
     * capacity is taken as given.
     */
    method CreateRoom(name: string, hostId: int, hostName: string, maxPlayers: int, gameMode: string, isPrivate: bool, roomId: string)
      returns (room: Room)
      requires Valid()
      modifies this`rooms
      ensures Valid()
      ensures fresh(room) && fresh(room.model) && rooms == old(rooms)[roomId := room]
      ensures RoomCount() == old(RoomCount()) + (if roomId in old(rooms) then 0 else 1)
      ensures room.model.id == roomId && room.model.name == name && room.model.hostId == hostId
      ensures room.model.maxPlayers == maxPlayers && room.model.gameMode == gameMode && room.model.isPrivate == isPrivate
      ensures room.model.state == Waiting && room.engine == null
      ensures |room.model.players| == 1
      ensures var host := room.model.players[0];
                host.id == hostId && host.username == hostName && host.color == Red && PlayerWellFormed(host)
      ensures room.conns == map[hostId := Connection(hostId, hostName, false)]
      ensures room.model.lastDice == 0 && room.Playable()
    {
      room := OpenRoom(name, hostId, hostName, maxPlayers, gameMode, isPrivate, roomId);
      rooms := rooms[roomId := room];
    }

    /** `GetRoom`: the room registered under `roomId`, or "room not found". */
    function GetRoom(roomId: string): (r: Option<Room>)
      reads this
      ensures r.Some? <==> roomId in rooms
      ensures r.Some? ==> r.value == rooms[roomId]
    {
      if roomId in rooms then Some(rooms[roomId]) else None
    }

    /** `JoinRoom`: the lookup, then the room's `AddPlayer`, passing on either refusal. */
    method JoinRoom(roomId: string, playerId: int, username: string) returns (room: Option<Room>, err: Option<RegistryError>)
      requires Valid()
      modifies if roomId in rooms then {rooms[roomId], rooms[roomId].model} else {}
      ensures Valid() && rooms == old(rooms)
      ensures roomId !in rooms ==> err == Some(RoomNotFound) && room.None?
      ensures roomId in rooms ==>
                var r := rooms[roomId];
                && (old(r.Playable()) ==> r.Playable())
                && (old(|r.model.players|) >= r.model.maxPlayers ==> err == Some(Refused(RoomFull)))
                && (old(|r.model.players|) < r.model.maxPlayers && playerId in old(r.conns) ==> err == Some(Refused(AlreadyInRoom)))
                && (err.None? <==> old(|r.model.players|) < r.model.maxPlayers && playerId !in old(r.conns))
                && (err.Some? ==> room.None? && r.model.players == old(r.model.players) && r.conns == old(r.conns))
                && (err.None? ==>
                      && room == Some(r)
                      && r.conns == old(r.conns)[playerId := Connection(playerId, username, false)]
                      && |r.model.players| == old(|r.model.players|) + 1
                      && r.model.players[..|r.model.players| - 1] == old(r.model.players))
    ensures roomId in rooms && err.None? ==>
              var r := rooms[roomId]; var p := r.model.players[|r.model.players| - 1];
              && fresh(p) && p.id == playerId && p.username == username
              && PlayerWellFormed(p) && !p.isReady && !p.isAI
              && (p.color == NoColor <==> forall k :: 0 <= k < |Colors| ==> ColorTaken(old(r.model.players), Colors[k]))
              && (p.color != NoColor ==>
                    !ColorTaken(old(r.model.players), p.color)
                    && forall k :: 0 <= k < ColorIndex(p.color) ==> ColorTaken(old(r.model.players), Colors[k]))
    {
      var found := GetRoom(roomId);
      if found.None? {
        return None, Some(RoomNotFound);
      }
      var r := found.value;
      var refusal := r.AddPlayer(playerId, username);
      if refusal.Some? {
        return None, Some(Refused(refusal.value));
      }
      return Some(r), None;
    }

    /** `LeaveRoom`: the lookup, the room's `RemovePlayer`, then the room is dropped if nobody is left connected. */
    method LeaveRoom(roomId: string, playerId: int) returns (err: Option<RegistryError>)
      requires Valid()
      modifies this`rooms, if roomId in rooms then {rooms[roomId], rooms[roomId].model} else {}
      ensures Valid()
      ensures roomId !in old(rooms) ==> err == Some(RoomNotFound) && rooms == old(rooms)
      ensures roomId in old(rooms) ==>
                var r := old(rooms[roomId]);
                && err == None
                && (old(r.Playable()) ==> r.Playable())
                && r.conns == old(r.conns) - {playerId}
                && r.model.players == WithoutFirst(old(r.model.players), playerId)
                && (old(r.model.hostId) == playerId && |r.model.players| > 0 ==> r.model.hostId == r.model.players[0].id)
                && (!(old(r.model.hostId) == playerId && |r.model.players| > 0) ==> r.model.hostId == old(r.model.hostId))
                && rooms == if r.IsEmpty() then old(rooms) - {roomId} else old(rooms)
    {
      var found := GetRoom(roomId);
      if found.None? {
        return Some(RoomNotFound);
      }
      var r := found.value;
      r.RemovePlayer(playerId);
      forall id | id in rooms
        ensures rooms[id].Valid()
      {
        if rooms[id] != r {
          assert rooms[id].model != r.model;
        }
      }
      if r.IsEmpty() {
        rooms := rooms - {roomId};
      }
      return None;
    }

    /** `ListRooms`: the record of every public room still waiting, full or not, in no particular order. */
    method ListRooms() returns (list: seq<RoomModel>)
      ensures forall m :: m in list ==> Listed(m) && exists id :: id in rooms && rooms[id].model == m
      ensures forall id :: id in rooms && Listed(rooms[id].model) ==> rooms[id].model in list
      ensures |list| == |set id | id in rooms && Listed(rooms[id].model)|
    {
      list := [];
      var pending := rooms.Keys;
      ghost var shown: set<string> := {};
      while pending != {}
        invariant pending <= rooms.Keys
        invariant shown == set id | id in rooms && id !in pending && Listed(rooms[id].model)
        invariant |list| == |shown|
        invariant forall m :: m in list ==> Listed(m) && exists id :: id in rooms && rooms[id].model == m
        invariant forall id :: id in rooms && id !in pending && Listed(rooms[id].model) ==> rooms[id].model in list
        decreases |pending|
      {
        var id :| id in pending;
        if Listed(rooms[id].model) {
          list := list + [rooms[id].model];
          shown := shown + {id};
        }
        pending := pending - {id};
      }
      assert shown == set id | id in rooms && Listed(rooms[id].model);
    }

    /** `GetRoomCount`: every registered room, empty and finished ones included. */
    function RoomCount(): (n: nat)
      reads this
      ensures n == |rooms.Keys|
    {
      |rooms|
    }

    /** `CleanupEmptyRooms`: unregisters exactly the rooms nobody is connected to. */
    method CleanupEmptyRooms()
      requires Valid()
      modifies this`rooms
      ensures Valid()
      ensures rooms == NonEmpty(old(rooms))
      ensures RoomCount() <= old(RoomCount())
      ensures RoomCount() == old(RoomCount()) <==> forall id :: id in old(rooms) ==> !old(rooms[id].IsEmpty())
    {
      var pending := rooms.Keys;
      ghost var start := rooms;
      while pending != {}
        invariant pending <= start.Keys
        invariant forall id :: id in rooms <==> id in start && (id in pending || !start[id].IsEmpty())
        invariant forall id :: id in rooms ==> rooms[id] == start[id]
        decreases |pending|
      {
        var id :| id in pending;
        if rooms[id].IsEmpty() {
          rooms := rooms - {id};
        }
        pending := pending - {id};
      }
      assert rooms == NonEmpty(start);
      SweepShrinks(start);
    }
  }
}
