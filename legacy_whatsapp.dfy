/** The earlier WhatsApp session and registry, app/bot/whatsapp.server.ts:
    no lock, a client whose start-up failure is swallowed, a built-in
    "Oi" auto-reply, and a registry that overwrites on every create. */
module LegacyWhatsApp {
  import opened Wrappers
  import opened WhatsAppClient
  import Strings

  /** The auto-reply text. */
  const Greeting: string := "Olá!"

  class LegacySession {
    const sessionId: string
    var initialized: bool
    var qrCode: string
    var client: Option<Client>
    /** How many client handles this session has created. */
    var clientsCreated: nat

    predicate Valid()
      reads this
    {
      initialized ==> client.Some?
    }

    constructor(sessionId: string)
      ensures this.sessionId == sessionId
      ensures !initialized && qrCode == "" && client == None && clientsCreated == 0
      ensures Valid()
    {
      this.sessionId := sessionId;
      initialized := false;
      qrCode := "";
      client := None;
      clientsCreated := 0;
    }

    function GetSessionId(): (r: string)
      ensures r == sessionId
    {
      sessionId
    }

    function GetQrCode(): (r: string)
      reads this
      ensures r == qrCode
    {
      qrCode
    }

    function GetClient(): (r: Option<Client>)
      reads this
      ensures r == client
    {
      client
    }

    /** `registerEventHandlers`: guarded by `initialized` alone. */
    method RegisterEventHandlers()
      requires Valid()
      modifies this
      ensures Valid()
      ensures client == if old(initialized) then Some(old(client).value.(listening := true))
                        else old(client)
      ensures initialized == old(initialized) && qrCode == old(qrCode)
      ensures clientsCreated == old(clientsCreated)
    {
      if !initialized {
        return;
      }
      client := Some(client.value.(listening := true));
    }

    /** `initialize`: a new client handle; `started` is whether
        `client.initialize()` resolved. Only then is the session initialised
        and its listeners attached; a failure is logged and swallowed. */
    method Initialize(started: bool)
      requires Valid()
      modifies this
      ensures Valid()
      ensures initialized == (old(initialized) || started)
      ensures client == Some(Client(old(clientsCreated), started, false))
      ensures clientsCreated == old(clientsCreated) + 1
      ensures qrCode == old(qrCode)
    {
      client := Some(Client(clientsCreated, false, false));
      clientsCreated := clientsCreated + 1;
      if started {
        initialized := true;
        RegisterEventHandlers();
      }
    }

    /** `killClient`: destroys the client of an initialised session. */
    method KillClient()
      requires Valid()
      modifies this
      ensures Valid()
      ensures client == if old(initialized) then Some(old(client).value.(destroyed := true))
                        else old(client)
      ensures initialized == old(initialized) && qrCode == old(qrCode)
      ensures clientsCreated == old(clientsCreated)
    {
      if !initialized {
        return;
      }
      client := Some(client.value.(destroyed := true));
    }

    /** `restartClient`: an initialised session kills its client and takes a
        new handle with listeners attached, whose start-up is not awaited. */
    method RestartClient()
      requires Valid()
      modifies this
      ensures Valid()
      ensures !old(initialized) ==> client == old(client) && clientsCreated == old(clientsCreated)
      ensures old(initialized) ==>
        client == Some(Client(old(clientsCreated), true, false))
        && clientsCreated == old(clientsCreated) + 1
      ensures initialized == old(initialized) && qrCode == old(qrCode)
    {
      if !initialized {
        return;
      }
      KillClient();
      client := Some(Client(clientsCreated, false, false));
      clientsCreated := clientsCreated + 1;
      RegisterEventHandlers();
    }

    predicate Listening()
      reads this
    {
      client.Some? && client.value.Delivers()
    }

    /** The `qr` listener: each payload overwrites the stored one before the
        owner's callback runs. */
    method OnQr(qr: string) returns (calls: seq<Notification>)
      modifies this
      ensures old(Listening()) ==> qrCode == qr && calls == [QrGenerated(GetQrCode())]
      ensures !old(Listening()) ==> qrCode == old(qrCode) && calls == []
      ensures initialized == old(initialized) && client == old(client)
      ensures clientsCreated == old(clientsCreated)
    {
      calls := [];
      if Listening() {
        qrCode := qr;
        calls := [QrGenerated(qr)];
      }
    }

    /** The `ready` listener. */
    method OnReady() returns (calls: seq<Notification>)
      ensures calls == if Listening() then [ClientReady] else []
    {
      calls := if Listening() then [ClientReady] else [];
    }

    /** The `disconnected` listener does nothing. */
    method OnDisconnected() returns (calls: seq<Notification>)
      ensures calls == []
    {
      calls := [];
    }

    /** The `message` listener: a body containing "Oi" (case-sensitive) gets
        exactly one "Olá!" back to its sender, any other body none. */
    method OnMessage(message: Message) returns (sent: seq<Outgoing>)
      ensures Listening() && Strings.Contains(message.body, "Oi") ==>
        sent == [Outgoing(message.from, Greeting)]
      ensures !(Listening() && Strings.Contains(message.body, "Oi")) ==> sent == []
    {
      sent := [];
      if Listening() && Strings.Occurs(message.body, "Oi") {
        sent := [Outgoing(message.from, Greeting)];
      }
    }
  }

  /** The earlier `WhatsAppManager`. */
  class LegacyManager {
    var sessions: map<string, LegacySession>

    constructor()
      ensures sessions == map[]
    {
      sessions := map[];
    }

    /** `createClient`: no duplicate check; the new session replaces any
        session filed under the id, whatever its start-up outcome. */
    method CreateClient(sessionId: string, started: bool) returns (s: LegacySession)
      modifies this
      ensures fresh(s) && s.sessionId == sessionId && s.initialized == started
      ensures sessions == old(sessions)[sessionId := s]
    {
      s := new LegacySession(sessionId);
      s.Initialize(started);
      sessions := sessions[sessionId := s];
    }

    function GetClient(sessionId: string): (r: Option<LegacySession>)
      reads this
      ensures r.Some? <==> sessionId in sessions
      ensures r.Some? ==> r.value == sessions[sessionId]
    {
      if sessionId in sessions then Some(sessions[sessionId]) else None
    }
  }

  /** Creating the same id twice leaves only the second session registered. */
  method CreateTwice(m: LegacyManager, sessionId: string, first: bool, second: bool)
    returns (s1: LegacySession, s2: LegacySession)
    modifies m
    ensures s1 != s2
    ensures m.GetClient(sessionId) == Some(s2)
    ensures m.sessions == old(m.sessions)[sessionId := s2]
  {
    s1 := m.CreateClient(sessionId, first);
    s2 := m.CreateClient(sessionId, second);
  }

  /** A greeting is answered, a message without "Oi" is not, and the match
      is case-sensitive. */
  method GreetingReplies(s: LegacySession) returns (a: seq<Outgoing>, b: seq<Outgoing>, c: seq<Outgoing>)
    requires s.Listening()
    ensures a == [Outgoing("5511", Greeting)]
    ensures b == [] && c == []
  {
    a := s.OnMessage(Message("5511", "Oi, tudo bem?"));
    assert Strings.OccursAt("Oi, tudo bem?", "Oi", 0);
    b := s.OnMessage(Message("5511", "Bom dia"));
    NoLeadNoMatch("Bom dia", "Oi");
    c := s.OnMessage(Message("5511", "oi"));
    NoLeadNoMatch("oi", "Oi");
  }

  /** A text without the first character of `t` does not contain `t`. */
  lemma NoLeadNoMatch(s: string, t: string)
    requires |t| > 0 && t[0] !in s
    ensures !Strings.Contains(s, t)
  {
    forall i | 0 <= i <= |s| - |t| ensures !Strings.OccursAt(s, t, i) {
      assert s[i..i + |t|][0] == s[i];
      assert s[i] in s;
    }
  }

  /** The earlier session's `ready` notifications follow its client: only an
      initialisation whose client started lets them through, and none pass
      once the client is killed, the greeting auto-reply included. */
  method LegacyEventsFollowLifecycle(sessionId: string, started: bool, m: Message)
    returns (ready: seq<Notification>, afterKill: seq<Notification>, replies: seq<Outgoing>)
    ensures ready == if started then [ClientReady] else []
    ensures afterKill == [] && replies == []
  {
    var s := new LegacySession(sessionId);
    s.Initialize(started);
    ready := s.OnReady();
    s.KillClient();
    afterKill := s.OnReady();
    replies := s.OnMessage(m);
  }
}
