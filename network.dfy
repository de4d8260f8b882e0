/** `NetworkManager` of network.js: the client's session fields, the
    guards in front of every request it sends, the socket handlers that
    update the session, and the `on`/`off`/`trigger` registry through
    which the game listens. Socket emits go to the `sent` log, callbacks
    are opaque ids and each call of one goes to the `calls` log. */
module Network {
  import opened Util
  import Relay

  /** A registered listener, known only by identity. */
  type CallbackId = nat

  /** The data a listener is called with: `undefined`, a player list, or
      anything else the server relayed. */
  datatype EventData = NoData | PlayerList(players: seq<Relay.RoomPlayer>) | Relayed(data: string)

  datatype Call = Call(callback: CallbackId, data: EventData)

  /** What a `create-room` or `join-room` acknowledgement carries; `players`
      may be missing. */
  datatype Ack = Ack(success: bool, roomCode: Option<string>, players: Option<seq<Relay.RoomPlayer>>, error: Option<string>)

  /** The acknowledgement handed to the caller when there is no connection. */
  const NotConnected := Ack(false, None, None, Some("Not connected to server"))

  /** Every request the client emits. */
  datatype Request =
    | CreateRoom
    | JoinRoom(code: string)
    | LeaveRoom
    | AddPlayer(playerData: Relay.PlayerData)
    | RemovePlayer(playerId: string)
    | StartBattle
    | StartRace(leftHurdles: string, rightHurdles: string)
    | BattleUpdate(battleData: string)
    | KnightMove(moveData: string)
    | KnightAttack(attackData: string)
    | KnightDamage(damageData: string)
    | BattleEnded(winnerData: string)
    | NextBattle
    | RaceClick(team: string)
    | RaceJump(team: string)
    | RaceEnded(winnerData: string)

  /** The socket event each request is emitted as. */
  function EventName(r: Request): string {
    match r
    case CreateRoom => "create-room"
    case JoinRoom(_) => "join-room"
    case LeaveRoom => "leave-room"
    case AddPlayer(_) => "add-player"
    case RemovePlayer(_) => "remove-player"
    case StartBattle => "start-battle"
    case StartRace(_, _) => "start-race"
    case BattleUpdate(_) => "battle-update"
    case KnightMove(_) => "knight-move"
    case KnightAttack(_) => "knight-attack"
    case KnightDamage(_) => "knight-damage"
    case BattleEnded(_) => "battle-ended"
    case NextBattle => "next-battle"
    case RaceClick(_) => "race-click"
    case RaceJump(_) => "race-jump"
    case RaceEnded(_) => "race-ended"
  }

  /** The requests that need a connection instead of a room, and the one
      that also changes the session when it is sent. */
  predicate SessionRequest(r: Request) {
    r.CreateRoom? || r.JoinRoom? || r.LeaveRoom?
  }

  /** The starts only a host may send. */
  predicate HostOnly(r: Request) {
    r.StartBattle? || r.StartRace?
  }

  /** The server events the client hands on to its listeners unchanged,
      under the same name. */
  datatype Incoming =
    | PlayerJoined | PlayerLeft | BattleStarted | BattleSync | KnightMoved | KnightAttacked
    | KnightDamaged | BattleOver | ReturnToLobby | RaceStarted | RaceClicked | RaceJumped | RaceOver

  function IncomingName(e: Incoming): string {
    match e
    case PlayerJoined => "player-joined"
    case PlayerLeft => "player-left"
    case BattleStarted => "battle-started"
    case BattleSync => "battle-sync"
    case KnightMoved => "knight-moved"
    case KnightAttacked => "knight-attacked"
    case KnightDamaged => "knight-damaged"
    case BattleOver => "battle-ended"
    case ReturnToLobby => "return-to-lobby"
    case RaceStarted => "race-started"
    case RaceClicked => "race-click"
    case RaceJumped => "race-jump"
    case RaceOver => "race-ended"
  }

  /** The listeners of `event`, none if it was never registered. */
  function Listeners(reg: map<string, seq<CallbackId>>, event: string): seq<CallbackId> {
    if event in reg then reg[event] else []
  }

  /** The registry after `on(event, cb)`. */
  function Register(reg: map<string, seq<CallbackId>>, event: string, cb: CallbackId): map<string, seq<CallbackId>> {
    reg[event := Listeners(reg, event) + [cb]]
  }

  function IsNot(cb: CallbackId): CallbackId -> bool {
    (c: CallbackId) => c != cb
  }

  /** The registry after `off(event, cb)`: an event that was never
      registered stays absent; a registered one keeps its entry, possibly
      empty. */
  function Unregister(reg: map<string, seq<CallbackId>>, event: string, cb: CallbackId): map<string, seq<CallbackId>> {
    if event !in reg then reg else reg[event := Filter(reg[event], IsNot(cb))]
  }

  /** The calls `forEach` makes over a listener list. */
  function Calls(cbs: seq<CallbackId>, data: EventData): (r: seq<Call>)
    ensures |r| == |cbs|
    ensures forall i :: 0 <= i < |cbs| ==> r[i] == Call(cbs[i], data)
  {
    if cbs == [] then [] else [Call(cbs[0], data)] + Calls(cbs[1..], data)
  }

  /** `on` adds the callback last for its event and touches no other event. */
  lemma RegisterFacts(reg: map<string, seq<CallbackId>>, event: string, cb: CallbackId, other: string)
    ensures Listeners(Register(reg, event, cb), event) == Listeners(reg, event) + [cb]
    ensures other != event ==> Listeners(Register(reg, event, cb), other) == Listeners(reg, other)
  {
  }

  /** `off` removes every registration of that callback for that event,
      keeps the others in order and touches no other event. */
  lemma UnregisterFacts(reg: map<string, seq<CallbackId>>, event: string, cb: CallbackId, other: string)
    ensures forall c :: c in Listeners(Unregister(reg, event, cb), event) <==> c in Listeners(reg, event) && c != cb
    ensures Listeners(Unregister(reg, event, cb), event) == Filter(Listeners(reg, event), IsNot(cb))
    ensures other != event ==> Listeners(Unregister(reg, event, cb), other) == Listeners(reg, other)
  {
    forall c: CallbackId {
      FilterMembership(Listeners(reg, event), IsNot(cb), c);
    }
  }

  /** Registering and then unregistering the same callback leaves the
      listeners as unregistering alone would: every earlier registration
      of it goes as well. */
  lemma OffUndoesOn(reg: map<string, seq<CallbackId>>, event: string, cb: CallbackId)
    ensures Listeners(Unregister(Register(reg, event, cb), event, cb), event)
         == Listeners(Unregister(reg, event, cb), event)
  {
    FilterSnoc(Listeners(reg, event), cb, IsNot(cb));
    if event !in reg {
      FilterNone([cb], IsNot(cb));
    }
  }

  /** A trigger calls the listed callbacks and nothing else, each with
      the triggered data. */
  lemma CallsMeaning(cbs: seq<CallbackId>, data: EventData, c: Call)
    ensures c in Calls(cbs, data) <==> c.callback in cbs && c.data == data
  {
    var r := Calls(cbs, data);
    if c in r {
      var i :| 0 <= i < |r| && r[i] == c;
      assert cbs[i] == c.callback;
    }
    if c.callback in cbs && c.data == data {
      var i :| 0 <= i < |cbs| && cbs[i] == c.callback;
      assert r[i] == c;
    }
  }

  class NetworkManager {
    var connected: bool
    var roomCode: Option<string>
    var isHost: bool
    var mySocketId: Option<string>
    var networkPlayers: seq<Relay.RoomPlayer>
    var eventCallbacks: map<string, seq<CallbackId>>
    /** Every request emitted on the socket, oldest first. */
    var sent: seq<Request>
    /** Every listener call made by `trigger`, oldest first. */
    var calls: seq<Call>

    /** The state before the socket connects. */
    constructor ()
      ensures !connected && roomCode == None && !isHost && mySocketId == None
      ensures networkPlayers == [] && eventCallbacks == map[] && sent == [] && calls == []
    {
      connected := false;
      roomCode := None;
      isHost := false;
      mySocketId := None;
      networkPlayers := [];
      eventCallbacks := map[];
      sent := [];
      calls := [];
    }

    /** `inRoom` tests for a recorded code, the send guards for a truthy
        one: they disagree only on the empty code. */
    function InRoom(): (r: bool)
      reads this
      ensures Truthy(roomCode) ==> r
      ensures r && !Truthy(roomCode) ==> roomCode == Some("")
      ensures !r ==> roomCode == None
    {
      roomCode.Some?
    }

    /** `on`. */
    method On(event: string, cb: CallbackId)
      modifies this`eventCallbacks
      ensures eventCallbacks == Register(old(eventCallbacks), event, cb)
    {
      if event !in eventCallbacks {
        eventCallbacks := eventCallbacks[event := []];
      }
      eventCallbacks := eventCallbacks[event := eventCallbacks[event] + [cb]];
    }

    /** `off`. */
    method Off(event: string, cb: CallbackId)
      modifies this`eventCallbacks
      ensures eventCallbacks == Unregister(old(eventCallbacks), event, cb)
    {
      if event !in eventCallbacks {
        return;
      }
      eventCallbacks := eventCallbacks[event := Filter(eventCallbacks[event], IsNot(cb))];
    }

    /** `trigger`: calls the listeners registered when it starts, in order. */
    method Trigger(event: string, data: EventData)
      modifies this`calls
      ensures calls == old(calls) + Calls(Listeners(eventCallbacks, event), data)
    {
      if event !in eventCallbacks {
        return;
      }
      var cbs := eventCallbacks[event];
      var i := 0;
      while i < |cbs|
        invariant 0 <= i <= |cbs|
        invariant calls == old(calls) + Calls(cbs[..i], data)
      {
        assert cbs[..i + 1] == cbs[..i] + [cbs[i]];
        CallsAppend(cbs[..i], [cbs[i]], data);
        calls := calls + [Call(cbs[i], data)];
        i := i + 1;
      }
      assert cbs[..i] == cbs;
    }

    /** `createRoom`: without a connection the caller's callback gets the
        refusal at once and nothing is sent; otherwise the request goes
        out and the answer arrives later, in `CreateRoomAnswered`. */
    method RequestRoom() returns (refusal: Option<Ack>)
      modifies this`sent
      ensures !connected ==> refusal == Some(NotConnected) && sent == old(sent)
      ensures connected ==> refusal == None && sent == old(sent) + [CreateRoom]
    {
      if !connected {
        return Some(NotConnected);
      }
      sent := sent + [CreateRoom];
      refusal := None;
    }

    /** The `create-room` acknowledgement: on success this client hosts the
        room it names. The caller's callback then gets `ack` unchanged. */
    method CreateRoomAnswered(ack: Ack)
      modifies this`roomCode, this`isHost
      ensures ack.success ==> roomCode == ack.roomCode && isHost
      ensures !ack.success ==> roomCode == old(roomCode) && isHost == old(isHost)
    {
      if ack.success {
        roomCode := ack.roomCode;
        isHost := true;
      }
    }

    /** `joinRoom`: the same split as `RequestRoom`. */
    method RequestJoin(code: string) returns (refusal: Option<Ack>)
      modifies this`sent
      ensures !connected ==> refusal == Some(NotConnected) && sent == old(sent)
      ensures connected ==> refusal == None && sent == old(sent) + [JoinRoom(code)]
    {
      if !connected {
        return Some(NotConnected);
      }
      sent := sent + [JoinRoom(code)];
      refusal := None;
    }

    /** The `join-room` acknowledgement for `code`: on success the client
        is a guest in the code it asked for, with the listed players or
        none when the list is missing. */
    method JoinRoomAnswered(code: string, ack: Ack)
      modifies this`roomCode, this`isHost, this`networkPlayers
      ensures ack.success ==> roomCode == Some(code) && !isHost
                              && networkPlayers == (if ack.players.Some? then ack.players.value else [])
      ensures !ack.success ==> roomCode == old(roomCode) && isHost == old(isHost) && networkPlayers == old(networkPlayers)
    {
      if ack.success {
        roomCode := Some(code);
        isHost := false;
        networkPlayers := if ack.players.Some? then ack.players.value else [];
      }
    }

    /** `leaveRoom`: only while in a room, and then the session is cleared. */
    method LeaveRoomNow()
      modifies this`sent, this`roomCode, this`isHost, this`networkPlayers
      ensures old(Truthy(roomCode)) ==>
        && sent == old(sent) + [LeaveRoom] && roomCode == None && !isHost && networkPlayers == []
      ensures !old(Truthy(roomCode)) ==>
        && sent == old(sent) && roomCode == old(roomCode) && isHost == old(isHost)
        && networkPlayers == old(networkPlayers)
    {
      if Truthy(roomCode) {
        sent := sent + [LeaveRoom];
        roomCode := None;
        isHost := false;
        networkPlayers := [];
      }
    }

    /** `addPlayer`, `removePlayer`, `startBattle`, `startRace` and every
        `send*`/`nextBattle`: nothing leaves without a room code, and the
        two starts also need this client to be the host. */
    method Send(r: Request)
      requires !SessionRequest(r)
      modifies this`sent
      ensures sent == old(sent) + if Truthy(roomCode) && (!HostOnly(r) || isHost) then [r] else []
    {
      if !Truthy(roomCode) {
        return;
      }
      if HostOnly(r) && !isHost {
        return;
      }
      sent := sent + [r];
    }

    /** The `connect` handler. */
    method Connected(socketId: string)
      modifies this`connected, this`mySocketId, this`calls
      ensures connected && mySocketId == Some(socketId)
      ensures calls == old(calls) + Calls(Listeners(eventCallbacks, "connected"), NoData)
    {
      connected := true;
      mySocketId := Some(socketId);
      Trigger("connected", NoData);
    }

    /** The `disconnect` handler: the room and host flag are kept. */
    method Disconnected()
      modifies this`connected, this`calls
      ensures !connected
      ensures calls == old(calls) + Calls(Listeners(eventCallbacks, "disconnected"), NoData)
    {
      connected := false;
      Trigger("disconnected", NoData);
    }

    /** The `players-updated` handler. */
    method PlayersUpdated(players: seq<Relay.RoomPlayer>)
      modifies this`networkPlayers, this`calls
      ensures networkPlayers == players
      ensures calls == old(calls) + Calls(Listeners(eventCallbacks, "players-updated"), PlayerList(players))
    {
      networkPlayers := players;
      Trigger("players-updated", PlayerList(players));
    }

    /** The `you-are-host` handler. */
    method BecameHost()
      modifies this`isHost, this`calls
      ensures isHost
      ensures calls == old(calls) + Calls(Listeners(eventCallbacks, "became-host"), NoData)
    {
      isHost := true;
      Trigger("became-host", NoData);
    }

    /** The handlers that only pass a server event on. All pass the
        server's data, except the `return-to-lobby` handler, which takes no
        argument and triggers with none. */
    method Received(e: Incoming, data: EventData)
      modifies this`calls
      ensures calls == old(calls) +
        Calls(Listeners(eventCallbacks, IncomingName(e)), if e.ReturnToLobby? then NoData else data)
    {
      Trigger(IncomingName(e), if e.ReturnToLobby? then NoData else data);
    }
  }

  lemma {:induction false} CallsAppend(a: seq<CallbackId>, b: seq<CallbackId>, data: EventData)
    ensures Calls(a + b, data) == Calls(a, data) + Calls(b, data)
  {
    if a != [] {
      assert (a + b)[1..] == a[1..] + b;
      CallsAppend(a[1..], b, data);
    } else {
      assert a + b == b;
    }
  }
}
