/** The room table of server.js: a map from room code to a room record,
    updated by the named events each connected socket sends. Socket ids
    and room codes are plain strings, the random room code and the clock
    are inputs, and every `emit` is appended to an outbox instead of being
    delivered. */
module Relay {
  import opened Util

  datatype GameState = InLobby | InBattle | InRace | Finished

  /** An entry of `room.players`: the client's player data with the
      sender's socket id and a player id written over it. `details`
      stands for the remaining fields, which the server never reads. */
  datatype RoomPlayer = RoomPlayer(socketId: string, id: string, details: string)

  /** What a client sends with `add-player`: `id` may be missing. */
  datatype PlayerData = PlayerData(id: Option<string>, details: string)

  datatype Room = Room(code: string, host: string, players: seq<RoomPlayer>, gameState: GameState)

  /** `io.to(name)`, `socket.to(name)` (everyone there but the sender) and
      `socket.emit` (the sender alone). Every socket is also a room named
      by its id, so `io.to(host)` reaches just the host. */
  datatype Target = ToRoom(name: string) | ToOthers(name: string, sender: string) | Direct(socketId: string)

  datatype Payload =
    | Players(players: seq<RoomPlayer>)
    | PlayersAndPositions(players: seq<RoomPlayer>, positions: string)
    | RaceSetup(players: seq<RoomPlayer>, leftHurdles: string, rightHurdles: string)
    | SocketRef(socketId: string)
    | FromSocket(socketId: string, data: string)
    | Forwarded(data: string)
    | Message(text: string)
    | NoPayload

  datatype Emit = Emit(target: Target, event: string, payload: Payload)

  /** The acknowledgement passed to the `create-room` and `join-room` callbacks. */
  datatype Reply = Created(roomCode: string) | Joined(roomCode: string, players: seq<RoomPlayer>) | Refused(error: string)

  /** The three host-only starts and what each carries. */
  datatype StartRequest =
    | StartBattle
    | StartBattleWithPositions(positions: string)
    | StartRace(leftHurdles: string, rightHurdles: string)

  /** The six events the server only forwards. */
  datatype RelayEvent = BattleUpdate | KnightMove | KnightAttack | KnightDamage | RaceClick | RaceJump

  /** At most one entry per socket. */
  predicate UniqueSockets(ps: seq<RoomPlayer>) {
    forall i, j :: 0 <= i < j < |ps| ==> ps[i].socketId != ps[j].socketId
  }

  /** `players.findIndex(p => p.socketId === sock)`. */
  function SocketIndex(ps: seq<RoomPlayer>, sock: string): (r: int)
    ensures -1 <= r < |ps|
    ensures r >= 0 ==> ps[r].socketId == sock && forall j :: 0 <= j < r ==> ps[j].socketId != sock
    ensures r < 0 ==> forall j :: 0 <= j < |ps| ==> ps[j].socketId != sock
  {
    if ps == [] then -1
    else if ps[0].socketId == sock then 0
    else
      var r := SocketIndex(ps[1..], sock);
      if r < 0 then -1 else r + 1
  }

  /** The `add-player` update: the sender's entry is replaced where it
      stands, or the new entry goes at the end. */
  function Upsert(ps: seq<RoomPlayer>, p: RoomPlayer): seq<RoomPlayer> {
    var i := SocketIndex(ps, p.socketId);
    if i >= 0 then ps[i := p] else ps + [p]
  }

  /** On a list with one entry per socket, the upsert keeps that property,
      holds `p` as the only entry of its socket, keeps every other entry in
      its place, and grows the list only when the socket was absent. */
  lemma UpsertFacts(ps: seq<RoomPlayer>, p: RoomPlayer)
    requires UniqueSockets(ps)
    ensures var r := Upsert(ps, p);
      && UniqueSockets(r)
      && p in r
      && (forall k :: 0 <= k < |r| && r[k].socketId == p.socketId ==> r[k] == p)
      && (forall k :: 0 <= k < |ps| && ps[k].socketId != p.socketId ==> r[k] == ps[k])
      && |r| == |ps| + (if exists k :: 0 <= k < |ps| && ps[k].socketId == p.socketId then 0 else 1)
  {
    var i := SocketIndex(ps, p.socketId);
    var r := Upsert(ps, p);
    if i >= 0 {
      assert r[i] == p;
      assert forall k :: 0 <= k < |ps| && k != i ==> ps[k].socketId != p.socketId;
    } else {
      assert r[|ps|] == p;
    }
  }

  /** The keep-tests of the two filters. */
  function IdIsNot(id: string): RoomPlayer -> bool {
    (p: RoomPlayer) => p.id != id
  }

  function SocketIsNot(sock: string): RoomPlayer -> bool {
    (p: RoomPlayer) => p.socketId != sock
  }

  /** Filtering never creates a second entry for a socket. */
  lemma {:induction false} FilterKeepsUnique(ps: seq<RoomPlayer>, keep: RoomPlayer -> bool)
    requires UniqueSockets(ps)
    ensures UniqueSockets(Filter(ps, keep))
  {
    if ps != [] {
      FilterKeepsUnique(ps[1..], keep);
      var rest := Filter(ps[1..], keep);
      assert forall j :: 0 <= j < |rest| ==> rest[j] in ps[1..];
      assert forall q :: q in ps[1..] ==> q.socketId != ps[0].socketId;
    }
  }

  /** `remove-player` keeps exactly the entries with another id, in order. */
  lemma RemovePlayerFacts(ps: seq<RoomPlayer>, id: string)
    requires UniqueSockets(ps)
    ensures UniqueSockets(Filter(ps, IdIsNot(id)))
    ensures forall q :: q in Filter(ps, IdIsNot(id)) <==> q in ps && q.id != id
  {
    FilterKeepsUnique(ps, IdIsNot(id));
    forall q: RoomPlayer {
      FilterMembership(ps, IdIsNot(id), q);
    }
  }

  /** Leaving removes every entry of the leaving socket and keeps the rest
      in order; so a host picked from what remains is never that socket. */
  lemma LeaveFacts(ps: seq<RoomPlayer>, sock: string)
    requires UniqueSockets(ps)
    ensures UniqueSockets(Filter(ps, SocketIsNot(sock)))
    ensures forall q :: q in Filter(ps, SocketIsNot(sock)) <==> q in ps && q.socketId != sock
  {
    FilterKeepsUnique(ps, SocketIsNot(sock));
    forall q: RoomPlayer {
      FilterMembership(ps, SocketIsNot(sock), q);
    }
  }

  /** The `id` an added entry gets: the client's if truthy, otherwise the
      socket id, a dash and the clock reading. */
  function PlayerId(data: PlayerData, sock: string, now: nat): string {
    if Truthy(data.id) then data.id.value else sock + "-" + DecimalString(now)
  }

  function StartedState(req: StartRequest): GameState {
    if req.StartRace? then InRace else InBattle
  }

  function Refusal(req: StartRequest): string {
    if req.StartRace? then "Only the host can start the race" else "Only the host can start the battle"
  }

  function StartEmit(code: string, req: StartRequest, ps: seq<RoomPlayer>): Emit {
    match req
    case StartBattle => Emit(ToRoom(code), "battle-started", Players(ps))
    case StartBattleWithPositions(pos) => Emit(ToRoom(code), "battle-started", PlayersAndPositions(ps, pos))
    case StartRace(l, r) => Emit(ToRoom(code), "race-started", RaceSetup(ps, l, r))
  }

  /** Which forwarded events look the room up first (only `battle-update`),
      which skip the sender, and what each sends on. */
  predicate ChecksRoom(e: RelayEvent) {
    e == BattleUpdate
  }

  function RelayEmit(e: RelayEvent, code: string, sock: string, data: string): Emit {
    match e
    case BattleUpdate => Emit(ToOthers(code, sock), "battle-sync", Forwarded(data))
    case KnightMove => Emit(ToOthers(code, sock), "knight-moved", FromSocket(sock, data))
    case KnightAttack => Emit(ToRoom(code), "knight-attacked", FromSocket(sock, data))
    case KnightDamage => Emit(ToRoom(code), "knight-damaged", Forwarded(data))
    case RaceClick => Emit(ToRoom(code), "race-click", FromSocket(sock, data))
    case RaceJump => Emit(ToRoom(code), "race-jump", FromSocket(sock, data))
  }

  class RelayServer {
    /** The `rooms` Map. */
    var rooms: map<string, Room>
    /** `socket.currentRoom` of each socket that has one. */
    var currentRoom: map<string, string>
    /** Every emit so far, oldest first. */
    var outbox: seq<Emit>

    /** Each room is stored under its own code and lists a socket at most once. */
    ghost predicate Valid()
      reads this
    {
      forall c :: c in rooms ==> rooms[c].code == c && UniqueSockets(rooms[c].players)
    }

    /** `socket.currentRoom`, when it is set. */
    function RoomOf(sock: string): Option<string>
      reads this
    {
      if sock in currentRoom then Some(currentRoom[sock]) else None
    }

    /** The guard `if (!roomCode) return; if (!room) return;`. */
    predicate InOpenRoom(sock: string)
      reads this
    {
      Truthy(RoomOf(sock)) && RoomOf(sock).value in rooms
    }

    constructor ()
      ensures rooms == map[] && currentRoom == map[] && outbox == []
      ensures Valid()
    {
      rooms := map[];
      currentRoom := map[];
      outbox := [];
    }

    /** `create-room` with the generated code: a room already stored under
        that code is replaced. */
    method CreateRoom(sock: string, code: string) returns (reply: Reply)
      requires Valid()
      modifies this
      ensures Valid()
      ensures rooms == old(rooms)[code := Room(code, sock, [], InLobby)]
      ensures currentRoom == old(currentRoom)[sock := code]
      ensures outbox == old(outbox)
      ensures reply == Created(code)
    {
      rooms := rooms[code := Room(code, sock, [], InLobby)];
      currentRoom := currentRoom[sock := code];
      reply := Created(code);
    }

    /** `join-room`: refused for an unknown code or a room in battle; a
        room in a race or finished can be joined. The room itself is not
        changed: the joiner appears only after `add-player`. */
    method JoinRoom(sock: string, code: string) returns (reply: Reply)
      requires Valid()
      modifies this
      ensures Valid()
      ensures rooms == old(rooms)
      ensures code !in rooms ==> reply == Refused("Room not found")
      ensures code in rooms && rooms[code].gameState == InBattle ==> reply == Refused("Game already in progress")
      ensures reply.Refused? ==> currentRoom == old(currentRoom) && outbox == old(outbox)
      ensures code in rooms && rooms[code].gameState != InBattle ==>
        && reply == Joined(code, rooms[code].players)
        && currentRoom == old(currentRoom)[sock := code]
        && outbox == old(outbox) + [Emit(ToOthers(code, sock), "player-joined", SocketRef(sock))]
    {
      if code !in rooms {
        return Refused("Room not found");
      }
      var room := rooms[code];
      if room.gameState == InBattle {
        return Refused("Game already in progress");
      }
      currentRoom := currentRoom[sock := code];
      reply := Joined(code, room.players);
      outbox := outbox + [Emit(ToOthers(code, sock), "player-joined", SocketRef(sock))];
    }

    /** `add-player`: upserts the sender's entry and sends the new list to
        the room. */
    method AddPlayer(sock: string, data: PlayerData, now: nat)
      requires Valid()
      modifies this`rooms, this`outbox
      ensures Valid()
      ensures !old(InOpenRoom(sock)) ==> rooms == old(rooms) && outbox == old(outbox)
      ensures old(InOpenRoom(sock)) ==>
        var code := old(RoomOf(sock)).value;
        var ps := Upsert(old(rooms)[code].players, RoomPlayer(sock, PlayerId(data, sock, now), data.details));
        && rooms == old(rooms)[code := old(rooms)[code].(players := ps)]
        && outbox == old(outbox) + [Emit(ToRoom(code), "players-updated", Players(ps))]
    {
      if !InOpenRoom(sock) {
        return;
      }
      var code := RoomOf(sock).value;
      var room := rooms[code];
      var player := RoomPlayer(sock, PlayerId(data, sock, now), data.details);
      var players := room.players;
      var existingIndex := SocketIndex(players, sock);
      if existingIndex >= 0 {
        players := players[existingIndex := player];
      } else {
        players := players + [player];
      }
      UpsertFacts(room.players, player);
      rooms := rooms[code := room.(players := players)];
      outbox := outbox + [Emit(ToRoom(code), "players-updated", Players(players))];
    }

    /** `remove-player`: drops every entry with that player id. */
    method RemovePlayer(sock: string, playerId: string)
      requires Valid()
      modifies this`rooms, this`outbox
      ensures Valid()
      ensures !old(InOpenRoom(sock)) ==> rooms == old(rooms) && outbox == old(outbox)
      ensures old(InOpenRoom(sock)) ==>
        var code := old(RoomOf(sock)).value;
        var ps := Filter(old(rooms)[code].players, IdIsNot(playerId));
        && rooms == old(rooms)[code := old(rooms)[code].(players := ps)]
        && outbox == old(outbox) + [Emit(ToRoom(code), "players-updated", Players(ps))]
    {
      if !InOpenRoom(sock) {
        return;
      }
      var code := RoomOf(sock).value;
      var room := rooms[code];
      var players := Filter(room.players, IdIsNot(playerId));
      FilterKeepsUnique(room.players, IdIsNot(playerId));
      rooms := rooms[code := room.(players := players)];
      outbox := outbox + [Emit(ToRoom(code), "players-updated", Players(players))];
    }

    /** `start-battle`, `start-battle-with-positions` and `start-race`:
        only the room's host changes the state; anyone else gets an error
        and nothing changes. */
    method Start(sock: string, req: StartRequest)
      requires Valid()
      modifies this`rooms, this`outbox
      ensures Valid()
      ensures !old(InOpenRoom(sock)) ==> rooms == old(rooms) && outbox == old(outbox)
      ensures old(InOpenRoom(sock)) ==>
        var code := old(RoomOf(sock)).value;
        var room := old(rooms)[code];
        if sock != room.host then
          && rooms == old(rooms)
          && outbox == old(outbox) + [Emit(Direct(sock), "error", Message(Refusal(req)))]
        else
          && rooms == old(rooms)[code := room.(gameState := StartedState(req))]
          && outbox == old(outbox) + [StartEmit(code, req, room.players)]
    {
      if !InOpenRoom(sock) {
        return;
      }
      var code := RoomOf(sock).value;
      var room := rooms[code];
      if sock != room.host {
        outbox := outbox + [Emit(Direct(sock), "error", Message(Refusal(req)))];
        return;
      }
      rooms := rooms[code := room.(gameState := StartedState(req))];
      outbox := outbox + [StartEmit(code, req, room.players)];
    }

    /** `battle-ended` (`race` false) and `race-ended` (`race` true): any
        member may end the game; the winner data is passed on. */
    method Ended(sock: string, race: bool, winnerData: string)
      requires Valid()
      modifies this`rooms, this`outbox
      ensures Valid()
      ensures !old(InOpenRoom(sock)) ==> rooms == old(rooms) && outbox == old(outbox)
      ensures old(InOpenRoom(sock)) ==>
        var code := old(RoomOf(sock)).value;
        && rooms == old(rooms)[code := old(rooms)[code].(gameState := Finished)]
        && outbox == old(outbox) + [Emit(ToRoom(code), if race then "race-ended" else "battle-ended", Forwarded(winnerData))]
    {
      if !InOpenRoom(sock) {
        return;
      }
      var code := RoomOf(sock).value;
      var room := rooms[code];
      rooms := rooms[code := room.(gameState := Finished)];
      outbox := outbox + [Emit(ToRoom(code), if race then "race-ended" else "battle-ended", Forwarded(winnerData))];
    }

    /** `next-battle`: back to the lobby, from any state. */
    method NextBattle(sock: string)
      requires Valid()
      modifies this`rooms, this`outbox
      ensures Valid()
      ensures !old(InOpenRoom(sock)) ==> rooms == old(rooms) && outbox == old(outbox)
      ensures old(InOpenRoom(sock)) ==>
        var code := old(RoomOf(sock)).value;
        && rooms == old(rooms)[code := old(rooms)[code].(gameState := InLobby)]
        && outbox == old(outbox) + [Emit(ToRoom(code), "return-to-lobby", NoPayload)]
    {
      if !InOpenRoom(sock) {
        return;
      }
      var code := RoomOf(sock).value;
      var room := rooms[code];
      rooms := rooms[code := room.(gameState := InLobby)];
      outbox := outbox + [Emit(ToRoom(code), "return-to-lobby", NoPayload)];
    }

    /** The forwarding events: only `battle-update` needs the room to
        exist; the others send as soon as `currentRoom` is set. */
    method Forward(sock: string, e: RelayEvent, data: string)
      modifies this`outbox
      ensures var sends := Truthy(RoomOf(sock)) && (!ChecksRoom(e) || RoomOf(sock).value in rooms);
        outbox == old(outbox) + if sends then [RelayEmit(e, RoomOf(sock).value, sock, data)] else []
    {
      var code := RoomOf(sock);
      if !Truthy(code) {
        return;
      }
      if ChecksRoom(e) && code.value !in rooms {
        return;
      }
      outbox := outbox + [RelayEmit(e, code.value, sock, data)];
    }

    /** `leave-room` and `disconnect`: both run `handlePlayerLeave` when
        `currentRoom` is set, and neither clears it. */
    method Leave(sock: string)
      requires Valid()
      modifies this`rooms, this`outbox
      ensures Valid()
      ensures !Truthy(RoomOf(sock)) ==> rooms == old(rooms) && outbox == old(outbox)
      ensures Truthy(RoomOf(sock)) ==> var code := RoomOf(sock).value;
        && rooms == LeftRooms(old(rooms), code, sock)
        && outbox == old(outbox) + LeaveEmits(old(rooms), code, sock)
    {
      var code := RoomOf(sock);
      if Truthy(code) {
        HandlePlayerLeave(sock, code.value);
      }
    }

    /** `handlePlayerLeave`. */
    method HandlePlayerLeave(sock: string, code: string)
      requires Valid()
      modifies this`rooms, this`outbox
      ensures Valid()
      ensures rooms == LeftRooms(old(rooms), code, sock)
      ensures outbox == old(outbox) + LeaveEmits(old(rooms), code, sock)
    {
      if code !in rooms {
        return;
      }
      var room := rooms[code];
      var players := Filter(room.players, SocketIsNot(sock));
      FilterKeepsUnique(room.players, SocketIsNot(sock));
      var host := room.host;
      if host == sock {
        if |players| > 0 {
          host := players[0].socketId;
          outbox := outbox + [Emit(ToRoom(host), "you-are-host", NoPayload)];
        } else {
          rooms := map c | c in rooms && c != code :: rooms[c];
          return;
        }
      }
      rooms := rooms[code := room.(players := players, host := host)];
      outbox := outbox + [Emit(ToRoom(code), "players-updated", Players(players)),
                          Emit(ToRoom(code), "player-left", SocketRef(sock))];
    }
  }

  /** The room table after `sock` leaves room `code`: its entries are
      dropped; a departing host hands over to the first remaining entry,
      or the room is deleted when none remains. */
  function LeftRooms(rooms: map<string, Room>, code: string, sock: string): map<string, Room> {
    if code !in rooms then rooms
    else
      var room := rooms[code];
      var ps := Filter(room.players, SocketIsNot(sock));
      if room.host == sock && |ps| == 0 then map c | c in rooms && c != code :: rooms[c]
      else rooms[code := room.(players := ps, host := if room.host == sock then ps[0].socketId else room.host)]
  }

  /** The emits of the same leave, in order. */
  function LeaveEmits(rooms: map<string, Room>, code: string, sock: string): seq<Emit> {
    if code !in rooms then []
    else
      var room := rooms[code];
      var ps := Filter(room.players, SocketIsNot(sock));
      if room.host == sock && |ps| == 0 then []
      else
        (if room.host == sock then [Emit(ToRoom(ps[0].socketId), "you-are-host", NoPayload)] else [])
        + [Emit(ToRoom(code), "players-updated", Players(ps)), Emit(ToRoom(code), "player-left", SocketRef(sock))]
  }

  /** After a leave the room, if it still exists, holds no entry of the
      leaving socket and is hosted by someone else whenever the leaver was
      its host; it is gone exactly when its host left it empty; every other
      room is untouched. */
  lemma LeaveOutcome(rooms: map<string, Room>, code: string, sock: string)
    requires code in rooms && UniqueSockets(rooms[code].players)
    ensures var after := LeftRooms(rooms, code, sock);
      var room := rooms[code];
      && (code !in after <==> room.host == sock && forall q :: q in room.players ==> q.socketId == sock)
      && (forall c :: c != code ==> (c in after <==> c in rooms) && (c in rooms ==> after[c] == rooms[c]))
      && (code in after ==>
            && (forall q :: q in after[code].players ==> q.socketId != sock)
            && (forall q :: q in room.players && q.socketId != sock ==> q in after[code].players)
            && (room.host == sock ==> after[code].host != sock && after[code].host == after[code].players[0].socketId)
            && (room.host != sock ==> after[code].host == room.host))
  {
    var room := rooms[code];
    var ps := Filter(room.players, SocketIsNot(sock));
    LeaveFacts(room.players, sock);
    if |ps| == 0 {
      assert forall q :: q in room.players ==> q.socketId == sock;
    } else {
      assert ps[0] in ps;
    }
  }
}
