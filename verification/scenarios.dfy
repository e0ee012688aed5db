/** Callers' view: runs of handler calls whose outcome follows from the contracts alone. */
module Scenarios {
  import opened Wrappers
  import opened RoomState
  import opened Backoff
  import opened App

  /** Consecutive disconnects wait 0, 1000 and 2000 ms; a successful connect resets the delay. */
  method BackoffScenario()
  {
    var app := new AppComponent();
    var d := app.OnConnectionChange(Disconnected, "");
    assert d == Some(0);
    app.ReconnectTimerFires();
    d := app.OnConnectionChange(Disconnected, "");
    assert d == Some(1000);
    app.ReconnectTimerFires();
    d := app.OnConnectionChange(Disconnected, "");
    assert d == Some(2000);
    app.ReconnectTimerFires();
    d := app.OnConnectionChange(Connected, "bob");
    assert d == None && app.reconnectDelay == 0;
  }

  /** Connect, join as "bob", then "alice" enters and says "hello". */
  method EndToEndScenario()
  {
    var app := new AppComponent();
    app.InitializeConnection(Some("wss://chat.example"));
    var d := app.OnConnectionChange(Connected, "bob");
    var roomJid := GetRoomJid(RoomName, None);
    assert app.room.jid == Some(roomJid);
    app.OnPresence(Stanza(Some(roomJid), Some("alice"), None, None), 1, "#abcdef");
    app.OnMessage(Stanza(Some(roomJid), Some("alice"), Some("groupchat"), Some("hello")), 2, "#123456");
    assert app.room.participants.Keys == {"alice"};
    assert app.room.events == [JoinEvent(Some("alice"), 1), MessageEntry(Some("alice"), "hello", 2)];
    assert app.room.events[0].text == "alice joined room";
  }

  /** Three groupchat messages from a newcomer, bodies "hi", "" and "yo": two message events,
      and the newcomer's `eventsCount` stays at 1. */
  method MessageCountScenario()
  {
    var app := new AppComponent();
    app.OnMessage(Stanza(None, Some("alice"), Some("groupchat"), Some("hi")), 1, "#abcdef");
    app.OnMessage(Stanza(None, Some("alice"), Some("groupchat"), Some("")), 2, "#123456");
    app.OnMessage(Stanza(None, Some("alice"), Some("groupchat"), Some("yo")), 3, "#654321");
    assert app.room.participants["alice"].eventsCount == 1;
    assert app.room.events == [MessageEntry(Some("alice"), "hi", 1), MessageEntry(Some("alice"), "yo", 3)];
  }

  /** Only one ping is in flight; once it is answered the next one goes out. */
  method PingScenario()
  {
    var app := new AppComponent();
    app.Ping(RoutingDomain, "ping1", 10);
    assert app.sent == [];
    var d := app.OnConnectionChange(Connected, "bob");
    var before := app.sent;
    app.Ping(RoutingDomain, "ping1", 10);
    assert app.sent == before + [PingRequest(RoutingDomain, "ping1")];
    app.Ping(RoutingDomain, "ping2", 20);
    assert app.sent == before + [PingRequest(RoutingDomain, "ping1")];
    app.PingSucceeded(25);
    assert app.pingDelay == Some(15);
    app.Ping(RoutingDomain, "ping3", 30);
    assert app.pingId == Some("ping3");
  }

  /** A second address replaces the room but keeps the backoff delay. */
  method ReinitializeScenario()
  {
    var app := new AppComponent();
    app.InitializeConnection(Some("wss://a.example"));
    app.OnMessage(Stanza(None, Some("alice"), Some("groupchat"), Some("hi")), 1, "#abcdef");
    var d := app.OnConnectionChange(Disconnected, "");
    app.ReconnectTimerFires();
    assert app.reconnectDelay == 1000;
    app.InitializeConnection(Some(""));
    assert app.room.events == [MessageEntry(Some("alice"), "hi", 1)];
    app.InitializeConnection(Some("wss://b.example"));
    assert app.room.View() == EmptyRoom;
    assert app.reconnectDelay == 1000;
  }
}
