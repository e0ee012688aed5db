/** The room the component shows: a roster keyed by nick and an ordered event log,
    with the update rules the presence and message handlers apply to them. */
module RoomState {
  import opened Wrappers

  /** A roster entry (`newParticipant`). */
  datatype Participant = Participant(joinedAt: int, color: string, eventsCount: nat)

  datatype EventKind = MessageEvent | PresenceEvent

  /** An entry of `room.events`; presence entries carry no nick. */
  datatype Event = Event(timestamp: int, kind: EventKind, nick: Option<string>, text: string)

  /** An inbound stanza as the handlers read it: the bare JID and the resource of its `from`
      attribute, its `type` attribute and the text of its first `body` element, each of
      which may be missing. */
  datatype Stanza = Stanza(bareFrom: Option<string>, resource: Option<string>,
                           stanzaType: Option<string>, body: Option<string>)

  /** The value of a room: its JID, the local nick, the roster and the event log. */
  datatype RoomView = RoomView(jid: Option<string>, nick: Option<string>,
                               participants: map<string, Participant>, events: seq<Event>)

  /** `newRoom()`: no JID, no nick, nobody, no events. */
  const EmptyRoom := RoomView(None, None, map[], [])

  /** A nick used as a property name or in a template string: a missing one reads "null". */
  function NickKey(nick: Option<string>): string
  {
    match nick
    case Some(n) => n
    case None => "null"
  }

  /** `newParticipant`, with the clock reading and the random colour passed in. */
  function NewParticipant(now: int, color: string): Participant
  {
    Participant(now, color, 0)
  }

  /** The log entry for a nick seen for the first time in a room presence. */
  function JoinEvent(nick: Option<string>, now: int): Event
  {
    Event(now, PresenceEvent, None, NickKey(nick) + " joined room")
  }

  /** The log entry for a groupchat message with a non-empty body. */
  function MessageEntry(nick: Option<string>, text: string, now: int): Event
  {
    Event(now, MessageEvent, nick, text)
  }

  /** `isRoomStanza`: the bare sender JID equals the room JID (both may be missing). */
  predicate IsRoomStanza(roomJid: Option<string>, s: Stanza)
  {
    s.bareFrom == roomJid
  }

  /** `onRoomPresence`: a known nick leaves on `unavailable` and is otherwise untouched;
      an unknown nick joins, whatever the presence type, and a join event is logged. */
  function ApplyRoomPresence(v: RoomView, s: Stanza, now: int, color: string): (r: RoomView)
    ensures r.jid == v.jid && r.nick == v.nick
    // every other roster entry is kept as it was
    ensures forall n :: n in v.participants && n != NickKey(s.resource) ==>
              n in r.participants && r.participants[n] == v.participants[n]
    ensures forall n :: n in r.participants && n != NickKey(s.resource) ==> n in v.participants
    // earlier events are kept, in order; at most one is added
    ensures v.events <= r.events
    // unknown nick, any type (`unavailable` included): exactly that nick joins, one join event
    ensures NickKey(s.resource) !in v.participants ==>
              && r.participants.Keys == v.participants.Keys + {NickKey(s.resource)}
              && r.participants[NickKey(s.resource)] == NewParticipant(now, color)
              && r.events == v.events + [JoinEvent(s.resource, now)]
    // known nick: `unavailable` removes it and logs nothing
    ensures NickKey(s.resource) in v.participants && s.stanzaType == Some("unavailable") ==>
              && r.participants.Keys == v.participants.Keys - {NickKey(s.resource)}
              && r.events == v.events
    // known nick, any other type: nothing changes
    ensures NickKey(s.resource) in v.participants && s.stanzaType != Some("unavailable") ==> r == v
  {
    var key := NickKey(s.resource);
    if key in v.participants then
      if s.stanzaType == Some("unavailable") then
        v.(participants := v.participants - {key})
      else
        v
    else
      v.(participants := v.participants[key := NewParticipant(now, color)],
         events := v.events + [JoinEvent(s.resource, now)])
  }

  /** `onPresence`: only a stanza from the room's own JID reaches the roster. */
  function ApplyPresence(v: RoomView, s: Stanza, now: int, color: string): (r: RoomView)
    ensures !IsRoomStanza(v.jid, s) ==> r == v
    ensures IsRoomStanza(v.jid, s) ==> r == ApplyRoomPresence(v, s, now, color)
    ensures r.jid == v.jid && r.nick == v.nick && v.events <= r.events
  {
    if IsRoomStanza(v.jid, s) then ApplyRoomPresence(v, s, now, color) else v
  }

  /** `onMessage`: a groupchat message from an unknown non-empty nick adds it to the roster
      with one counted event; a non-empty body is logged. Other types change nothing. */
  function ApplyMessage(v: RoomView, s: Stanza, now: int, color: string): (r: RoomView)
    ensures r.jid == v.jid && r.nick == v.nick
    ensures s.stanzaType != Some("groupchat") ==> r == v
    // known participants keep their records, `eventsCount` included
    ensures forall n :: n in v.participants ==> n in r.participants && r.participants[n] == v.participants[n]
    // the only possible newcomer is the sender, and only when its nick is non-empty
    ensures r.participants.Keys ==
              if s.stanzaType == Some("groupchat") && Truthy(s.resource)
              then v.participants.Keys + {s.resource.value} else v.participants.Keys
    ensures s.stanzaType == Some("groupchat") && Truthy(s.resource) && s.resource.value !in v.participants ==>
              r.participants[s.resource.value] == Participant(now, color, 1)
    // the log is append-only and grows by exactly the message, when it has a body
    ensures r.events ==
              if s.stanzaType == Some("groupchat") && Truthy(s.body)
              then v.events + [MessageEntry(s.resource, s.body.value, now)] else v.events
  {
    if s.stanzaType == Some("groupchat") then
      var v1 :=
        if Truthy(s.resource) && s.resource.value !in v.participants then
          v.(participants := v.participants[s.resource.value := NewParticipant(now, color).(eventsCount := 1)])
        else v;
      if Truthy(s.body) then
        v1.(events := v1.events + [MessageEntry(s.resource, s.body.value, now)])
      else v1
    else
      v
  }

  /** The room object the component mutates in place. */
  class Room {
    var jid: Option<string>
    var nick: Option<string>
    var participants: map<string, Participant>
    var events: seq<Event>

    function View(): RoomView
      reads this
    {
      RoomView(jid, nick, participants, events)
    }

    /** `newRoom()`. */
    constructor ()
      ensures View() == EmptyRoom
    {
      jid, nick := None, None;
      participants, events := map[], [];
    }
  }

  /** One inbound stanza as the transport hands it to a handler, with the clock reading and
      the random colour the handler would draw. */
  datatype Delivery =
    | PresenceDelivery(stanza: Stanza, now: int, color: string)
    | MessageDelivery(stanza: Stanza, now: int, color: string)

  function Deliver(v: RoomView, d: Delivery): RoomView
  {
    match d
    case PresenceDelivery(s, now, color) => ApplyPresence(v, s, now, color)
    case MessageDelivery(s, now, color) => ApplyMessage(v, s, now, color)
  }

  /** The room after a sequence of deliveries, handled one after another. */
  function DeliverAll(v: RoomView, ds: seq<Delivery>): RoomView
    decreases |ds|
  {
    if ds == [] then v else DeliverAll(Deliver(v, ds[0]), ds[1..])
  }

  /** Over any sequence of stanzas the room JID and nick stay as they are and the event
      log only grows at its end. */
  lemma {:induction false} DeliverAllAppendOnly(v: RoomView, ds: seq<Delivery>)
    ensures DeliverAll(v, ds).jid == v.jid && DeliverAll(v, ds).nick == v.nick
    ensures v.events <= DeliverAll(v, ds).events
    decreases |ds|
  {
    if ds != [] {
      var v1 := Deliver(v, ds[0]);
      DeliverAllAppendOnly(v1, ds[1..]);
    }
  }

  /** Every roster entry has counted at most one event. */
  ghost predicate CountsAtMostOne(v: RoomView)
  {
    forall n :: n in v.participants ==> v.participants[n].eventsCount <= 1
  }

  /** `eventsCount` is 0 for a participant created by a presence and 1 for one created
      by a message, and nothing ever increments it afterwards. */
  lemma {:induction false} DeliverAllCountsAtMostOne(v: RoomView, ds: seq<Delivery>)
    requires CountsAtMostOne(v)
    ensures CountsAtMostOne(DeliverAll(v, ds))
    decreases |ds|
  {
    if ds != [] {
      var v1 := Deliver(v, ds[0]);
      assert CountsAtMostOne(v1);
      DeliverAllCountsAtMostOne(v1, ds[1..]);
    }
  }

  /** A nick that has joined stays until an `unavailable` presence from the room names it:
      messages never remove anyone, and other presences leave it in place. */
  lemma {:induction false} DeliverAllKeepsMember(v: RoomView, ds: seq<Delivery>, n: string)
    requires n in v.participants
    requires forall i :: 0 <= i < |ds| ==>
               !(ds[i].PresenceDelivery? && NickKey(ds[i].stanza.resource) == n
                 && ds[i].stanza.stanzaType == Some("unavailable"))
    ensures n in DeliverAll(v, ds).participants
    decreases |ds|
  {
    if ds != [] {
      var v1 := Deliver(v, ds[0]);
      assert n in v1.participants;
      DeliverAllKeepsMember(v1, ds[1..], n);
    }
  }
}

/** `room.participants` is a plain JavaScript object, so the lookup `room.participants[nick]`
    also finds the names every object inherits. This module keeps that lookup as written,
    beside the own-key lookup of `RoomState` that the rest of the model uses. */
module RoomStateAsWritten {
  import opened Wrappers
  import opened RoomState

  /** Property names inherited from `Object.prototype`; each reads as a truthy value. */
  const ObjectPrototypeNames: set<string> :=
    {"constructor", "hasOwnProperty", "isPrototypeOf", "propertyIsEnumerable",
     "toLocaleString", "toString", "valueOf", "__proto__",
     "__defineGetter__", "__defineSetter__", "__lookupGetter__", "__lookupSetter__"}

  /** Truthiness of `room.participants[key]` on a plain object. */
  predicate FoundAsWritten(participants: map<string, Participant>, key: string)
  {
    key in participants || key in ObjectPrototypeNames
  }

  /** `onRoomPresence` with the inherited names visible to the lookup: a nick that is an
      inherited name is taken for a known participant, so it never joins and no join
      event is logged for it. */
  function ApplyRoomPresenceAsWritten(v: RoomView, s: Stanza, now: int, color: string): (r: RoomView)
    ensures NickKey(s.resource) !in ObjectPrototypeNames ==> r == ApplyRoomPresence(v, s, now, color)
    ensures NickKey(s.resource) in ObjectPrototypeNames ==>
              r.events == v.events && r.participants.Keys <= v.participants.Keys
  {
    var key := NickKey(s.resource);
    if FoundAsWritten(v.participants, key) then
      if s.stanzaType == Some("unavailable") then
        v.(participants := v.participants - {key})
      else
        v
    else
      v.(participants := v.participants[key := NewParticipant(now, color)],
         events := v.events + [JoinEvent(s.resource, now)])
  }

  /** `onMessage` with the inherited names visible to the lookup `!this.room.participants[nick]`:
      a groupchat message from such a nick never creates a participant. */
  function ApplyMessageAsWritten(v: RoomView, s: Stanza, now: int, color: string): (r: RoomView)
    ensures !(s.resource.Some? && s.resource.value in ObjectPrototypeNames) ==>
              r == ApplyMessage(v, s, now, color)
    ensures s.resource.Some? && s.resource.value in ObjectPrototypeNames ==>
              && r.jid == v.jid && r.nick == v.nick
              && r.participants == v.participants
              && r.events == ApplyMessage(v, s, now, color).events
  {
    if s.stanzaType == Some("groupchat") then
      var v1 :=
        if Truthy(s.resource) && !FoundAsWritten(v.participants, s.resource.value) then
          v.(participants := v.participants[s.resource.value := NewParticipant(now, color).(eventsCount := 1)])
        else v;
      if Truthy(s.body) then
        v1.(events := v1.events + [MessageEntry(s.resource, s.body.value, now)])
      else v1
    else
      v
  }

  /** The discrepancy on one input: "constructor" posts "hi" to a room it has not joined.
      As written only the message is logged; the own-key model also adds the sender. */
  lemma ConstructorMessageCreatesNoParticipant(v: RoomView, now: int, color: string)
    requires "constructor" !in v.participants
    ensures var s := Stanza(v.jid, Some("constructor"), Some("groupchat"), Some("hi"));
            && ApplyMessageAsWritten(v, s, now, color).participants == v.participants
            && ApplyMessage(v, s, now, color).participants["constructor"] == Participant(now, color, 1)
  {
  }

  /** The discrepancy on one input: a participant called "constructor" enters the room.
      As written, nothing happens; the own-key model adds the nick and logs its join. */
  lemma ConstructorNickNeverJoins(v: RoomView, now: int, color: string)
    requires "constructor" !in v.participants
    ensures var s := Stanza(v.jid, Some("constructor"), None, None);
            && ApplyRoomPresenceAsWritten(v, s, now, color) == v
            && "constructor" in ApplyRoomPresence(v, s, now, color).participants
            && ApplyRoomPresence(v, s, now, color).events == v.events + [JoinEvent(Some("constructor"), now)]
  {
  }
}
