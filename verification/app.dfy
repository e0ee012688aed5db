/** The chat component: connection lifecycle, reconnect backoff, liveness pings and the
    routing of inbound presences and messages into the room it shows. */
module App {
  import opened Wrappers
  import opened RoomState
  import opened Backoff

  /** The domain the transport connects to, and the target of the periodic ping. */
  const RoutingDomain := "localhost"
  /** `mucDomain`. */
  const MucDomain := "muc.localhost"
  /** The room joined on every successful connect, and its password. */
  const RoomName := "test1"
  const RoomPassword := "secret"

  /** Connection statuses the transport reports. Only the ones the component dispatches on
      are named; every other status is `OtherStatus`, whose `code` is the transport's numeric
      value of a status other than those five (callers never wrap one of the five in it). */
  datatype Status = Connecting | ConnFail | Disconnecting | Disconnected | Connected | OtherStatus(code: int)

  /** What the component asks the transport to do, in order. */
  datatype Outbound =
    | OpenSession(address: string)                        // new connection to the server address
    | Connect(domain: string)                             // `session.connect`
    | AvailablePresence                                   // initial `<presence/>`
    | JoinPresence(to: string, password: Option<string>)  // room join, to `room/nick`
    | ActiveChatState(roomJid: string)                    // "active" chat state to the room
    | PingRequest(to: string, id: string)                 // liveness `iq`, answered or timed out

  /** `getRoomJid`: the bare JID of a room on the multi-user chat domain. The user name
      only rebinds a local variable and never reaches the result. */
  function GetRoomJid(roomName: string, userName: Option<string>): (r: string)
    ensures r == roomName + "@" + MucDomain
    ensures |r| == |roomName| + 1 + |MucDomain| && r[|roomName|] == '@'
  {
    roomName + "@" + MucDomain
  }

  /** Index of the first `c` in `s`, or `|s|` when there is none. */
  function IndexOf(s: string, c: char): (k: nat)
    ensures k <= |s|
    ensures k < |s| ==> s[k] == c
    ensures c !in s[..k]
  {
    if s == [] then 0
    else if s[0] == c then 0
    else
      var k := 1 + IndexOf(s[1..], c);
      assert s[..k] == [s[0]] + s[1..][..k - 1];
      k
  }

  /** A bare JID read back as its local part and its domain, split at the first `@`. */
  function SplitBareJid(r: string): Option<(string, string)>
  {
    var k := IndexOf(r, '@');
    if k < |r| then Some((r[..k], r[k + 1..])) else None
  }

  lemma {:induction false} IndexOfAfterPrefix(a: string, c: char, b: string)
    requires c !in a
    ensures IndexOf(a + [c] + b, c) == |a|
  {
    if a != [] {
      assert a[0] in a;
      assert forall x :: x in a[1..] ==> x in a;
      assert (a + [c] + b)[1..] == a[1..] + [c] + b;
      IndexOfAfterPrefix(a[1..], c, b);
    }
  }

  /** The user name argument of `getRoomJid` has no effect on its result. */
  lemma GetRoomJidIgnoresUserName(roomName: string, u1: Option<string>, u2: Option<string>)
    ensures GetRoomJid(roomName, u1) == GetRoomJid(roomName, u2)
  {
  }

  /** A room name without `@` and the multi-user chat domain are read back on either
      side of the first `@` of the room JID. */
  lemma GetRoomJidReadBack(roomName: string, userName: Option<string>)
    requires '@' !in roomName
    ensures SplitBareJid(GetRoomJid(roomName, userName)) == Some((roomName, MucDomain))
  {
    var r := GetRoomJid(roomName, userName);
    assert r == roomName + ['@'] + MucDomain;
    IndexOfAfterPrefix(roomName, '@', MucDomain);
    assert r[..|roomName|] == roomName;
    assert r[|roomName| + 1..] == MucDomain;
  }

  class AppComponent {
    var serverAddress: Option<string>
    var sessionStatus: Option<Status>
    var reconnectDelay: int
    var pingId: Option<string>
    var pingSentAt: Option<int>
    var pingDelay: Option<int>
    var room: Room
    /** Requests handed to the transport so far. */
    var sent: seq<Outbound>
    /** Pings sent whose success or failure callback has not run yet. */
    ghost var outstandingPings: nat

    /** The reconnect delay is a whole number of steps within the ceiling, and at most one
        ping is outstanding, in which case `pingId` is set. */
    ghost predicate Valid()
      reads this
    {
      && ValidDelay(reconnectDelay)
      && outstandingPings <= 1
      && (outstandingPings == 1 ==> Truthy(pingId))
      && (Truthy(pingId) ==> pingSentAt.Some?)
    }

    /** The component's field initialisers. */
    constructor ()
      ensures Valid() && fresh(room)
      ensures room.View() == EmptyRoom
      ensures reconnectDelay == 0 && sessionStatus == None && serverAddress == None
      ensures pingId == None && pingSentAt == None && pingDelay == None
      ensures sent == [] && outstandingPings == 0
    {
      serverAddress, sessionStatus := None, None;
      reconnectDelay := 0;
      pingId, pingSentAt, pingDelay := None, None, None;
      room := new Room();
      sent := [];
      outstandingPings := 0;
    }

    /** `initializeConnection`: with no usable address, only the address field changes;
        otherwise the room is replaced by a fresh one and a connection is opened. Nothing
        else (delay, status, ping fields) is reset. */
    method InitializeConnection(address: Option<string>)
      requires Valid()
      modifies this
      ensures Valid()
      ensures serverAddress == address
      ensures !Truthy(address) ==> room == old(room) && sent == old(sent)
      ensures Truthy(address) ==>
                && fresh(room) && room.View() == EmptyRoom
                && sent == old(sent) + [OpenSession(address.value), Connect(RoutingDomain)]
      ensures reconnectDelay == old(reconnectDelay) && sessionStatus == old(sessionStatus)
      ensures pingId == old(pingId) && pingSentAt == old(pingSentAt) && pingDelay == old(pingDelay)
      ensures outstandingPings == old(outstandingPings)
    {
      serverAddress := address;
      if !Truthy(address) {
        return;
      }
      room := new Room();
      sent := sent + [OpenSession(address.value)];
      ConnectSession();
    }

    /** `connect`: ask the transport to connect to the routing domain. */
    method ConnectSession()
      modifies this`sent
      ensures sent == old(sent) + [Connect(RoutingDomain)]
    {
      sent := sent + [Connect(RoutingDomain)];
    }

    /** `onPresence`: a presence from the room's JID updates the roster; any other changes nothing. */
    method OnPresence(s: Stanza, now: int, color: string)
      modifies room
      ensures room.View() == ApplyPresence(old(room.View()), s, now, color)
    {
      if IsRoomStanza(room.jid, s) {
        OnRoomPresence(room, s, now, color);
      }
    }

    /** `onRoomPresence`, updating the given room in place. */
    method OnRoomPresence(target: Room, s: Stanza, now: int, color: string)
      modifies target
      ensures target.View() == ApplyRoomPresence(old(target.View()), s, now, color)
    {
      var key := NickKey(s.resource);
      if key in target.participants {
        if s.stanzaType == Some("unavailable") {
          target.participants := target.participants - {key};
        }
      } else {
        target.participants := target.participants[key := NewParticipant(now, color)];
        target.events := target.events + [JoinEvent(s.resource, now)];
      }
    }

    /** `onMessage`: groupchat messages feed the roster and the event log. */
    method OnMessage(s: Stanza, now: int, color: string)
      modifies room
      ensures room.View() == ApplyMessage(old(room.View()), s, now, color)
    {
      match s.stanzaType
      case Some("groupchat") =>
        if Truthy(s.resource) && s.resource.value !in room.participants {
          var p := NewParticipant(now, color);
          room.participants := room.participants[s.resource.value := p.(eventsCount := p.eventsCount + 1)];
        }
        if Truthy(s.body) {
          room.events := room.events + [MessageEntry(s.resource, s.body.value, now)];
        }
      case Some("chat") =>
      case _ =>
    }

    /** `onConnectionChange`: record the status, then react to DISCONNECTED (schedule a
        reconnect, whose delay is returned) and CONNECTED (join the room). `nick` is the
        random nick `onConnected` would draw. */
    method OnConnectionChange(status: Status, nick: string) returns (scheduled: Option<int>)
      requires Valid()
      modifies this, room
      ensures Valid() && room == old(room) && sessionStatus == Some(status)
      ensures room.participants == old(room.participants) && room.events == old(room.events)
      ensures serverAddress == old(serverAddress) && pingId == old(pingId) && pingSentAt == old(pingSentAt)
      ensures outstandingPings == old(outstandingPings)
      ensures status == Disconnected ==>
                && scheduled == Some(old(reconnectDelay)) && pingDelay == None
                && reconnectDelay == old(reconnectDelay) && sent == old(sent)
                && room.jid == old(room.jid) && room.nick == old(room.nick)
      ensures status == Connected ==>
                && scheduled == None && pingDelay == old(pingDelay) && reconnectDelay == 0
                && room.jid == Some(GetRoomJid(RoomName, None)) && room.nick == Some(nick)
                && sent == old(sent) + JoinRequests(nick)
      ensures status != Disconnected && status != Connected ==>
                && scheduled == None && pingDelay == old(pingDelay)
                && reconnectDelay == old(reconnectDelay) && sent == old(sent)
                && room.jid == old(room.jid) && room.nick == old(room.nick)
    {
      sessionStatus := Some(status);
      scheduled := None;
      match status
      case Disconnected =>
        var delay := OnDisconnected();
        scheduled := Some(delay);
      case Connected =>
        OnConnected(nick);
      case _ =>
    }

    /** `onDisconnected`: forget the last ping delay and schedule a reconnect after the
        current `reconnectDelay` (returned). The outstanding ping id is kept. */
    method OnDisconnected() returns (delay: int)
      modifies this`pingDelay
      ensures pingDelay == None
      ensures delay == reconnectDelay
    {
      pingDelay := None;
      delay := reconnectDelay;
    }

    /** The reconnect timer set by `onDisconnected`: grow the delay by one step while it is
        below the ceiling, then connect again. */
    method ReconnectTimerFires()
      requires Valid()
      modifies this`reconnectDelay, this`sent
      ensures Valid()
      ensures reconnectDelay == NextDelay(old(reconnectDelay))
      ensures sent == old(sent) + [Connect(RoutingDomain)]
    {
      if reconnectDelay < ReconnectCeiling {
        reconnectDelay := reconnectDelay + ReconnectStep;
      }
      ConnectSession();
    }

    /** `onConnected`: reset the backoff, announce availability and join the room under
        `nick`. The roster and the event log are kept. */
    method OnConnected(nick: string)
      requires Valid()
      modifies this`reconnectDelay, this`sent, room
      ensures Valid()
      ensures reconnectDelay == 0
      ensures room.jid == Some(GetRoomJid(RoomName, None)) && room.nick == Some(nick)
      ensures room.participants == old(room.participants) && room.events == old(room.events)
      ensures sent == old(sent) + JoinRequests(nick)
    {
      reconnectDelay := 0;
      sent := sent + [AvailablePresence];
      room.jid := Some(GetRoomJid(RoomName, None));
      room.nick := Some(nick);
      JoinRoom(room.jid.value, nick, Some(RoomPassword));
    }

    /** `joinRoom`: the join presence to `room/nick`, then the "active" chat state. */
    method JoinRoom(roomJid: string, userName: string, password: Option<string>)
      modifies this`sent
      ensures sent == old(sent) + [JoinPresence(roomJid + "/" + userName, password), ActiveChatState(roomJid)]
    {
      sent := sent + [JoinPresence(roomJid + "/" + userName, password)];
      sent := sent + [ActiveChatState(roomJid)];
    }

    /** `ping`: unless a ping is outstanding or the session is not connected, send one with
        the transport's fresh id and note when it left. */
    method Ping(jid: string, id: string, now: int)
      requires Valid() && id != ""
      modifies this`pingId, this`pingSentAt, this`sent, this`outstandingPings
      ensures Valid()
      ensures Truthy(old(pingId)) || sessionStatus != Some(Connected) ==>
                && pingId == old(pingId) && pingSentAt == old(pingSentAt)
                && sent == old(sent) && outstandingPings == old(outstandingPings)
      ensures !Truthy(old(pingId)) && sessionStatus == Some(Connected) ==>
                && pingId == Some(id) && pingSentAt == Some(now)
                && sent == old(sent) + [PingRequest(jid, id)]
                && old(outstandingPings) == 0 && outstandingPings == 1
    {
      if Truthy(pingId) || sessionStatus != Some(Connected) {
        return;
      }
      pingId := Some(id);
      pingSentAt := Some(now);
      sent := sent + [PingRequest(jid, id)];
      outstandingPings := outstandingPings + 1;
    }

    /** The ping's success callback: clear the id and record the round trip, which is not
        negative when the clock has not gone back. */
    method PingSucceeded(now: int)
      requires Valid() && outstandingPings == 1
      modifies this`pingId, this`pingDelay, this`outstandingPings
      ensures Valid() && outstandingPings == 0
      ensures pingId == None && pingSentAt.Some?
      ensures pingDelay == Some(now - pingSentAt.value)
      ensures now >= pingSentAt.value ==> pingDelay.value >= 0
    {
      pingId := None;
      pingDelay := Some(now - pingSentAt.value);
      outstandingPings := 0;
    }

    /** The ping's failure callback, also run on the one-second timeout: clear the id and
        forget the delay. */
    method PingFailed()
      requires Valid() && outstandingPings == 1
      modifies this`pingId, this`pingDelay, this`outstandingPings
      ensures Valid() && outstandingPings == 0
      ensures pingId == None && pingDelay == None
    {
      pingId := None;
      pingDelay := None;
      outstandingPings := 0;
    }
  }

  /** What `onConnected` sends: availability, then the room join and its chat state. */
  function JoinRequests(nick: string): seq<Outbound>
  {
    [AvailablePresence, JoinPresence(GetRoomJid(RoomName, None) + "/" + nick, Some(RoomPassword)),
     ActiveChatState(GetRoomJid(RoomName, None))]
  }
}
