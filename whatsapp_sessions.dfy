/** The lease-locked WhatsApp session and its registry, app/bots/whatsapp.server.ts.

    A session takes the Redis key `lock:whatsapp-session:<id>` with SET NX
    before it creates its client, so that two servers do not drive the same
    WhatsApp account. The `initialize` method is split at its awaits into
    `BeginInitialize` (token, SET NX, client creation) and
    `FinishInitialize` (the client's start-up outcome and the `finally`
    release), so that another server's writes in between can be stated; the
    one-minute interval of `startLockRenewal` is the explicit `RenewTick`. */
module WhatsAppSessions {
  import opened Wrappers
  import opened WhatsAppClient
  import Redis

  /** `LOCK_KEY(sessionId)`. */
  function LockKey(sessionId: string): string
  {
    "lock:whatsapp-session:" + sessionId
  }

  /** `LOCK_INTERVAL`, written as two minutes in milliseconds and passed to
      Redis as a number of seconds, both on acquire (EX) and on renewal
      (EXPIRE). */
  const LockInterval: int := 2 * 60 * 1000

  /** `LOCK_RENEWAL_INTERVAL`: the tick period in milliseconds. */
  const LockRenewalInterval: int := 60 * 1000

  function ContentionError(sessionId: string): string
  {
    "Session " + sessionId + " is already being initialized by another server."
  }

  function ExistsError(sessionId: string): string
  {
    "Session " + sessionId + " already exists."
  }

  /** Keys of the lock namespace are one-to-one with session ids. */
  lemma LockKeyInjective(a: string, b: string)
    ensures LockKey(a) == LockKey(b) <==> a == b
  {
    if LockKey(a) == LockKey(b) {
      assert a == LockKey(a)[|"lock:whatsapp-session:"|..];
    }
  }

  class WhatsAppSession {
    const sessionId: string
    var initialized: bool
    var qrCode: string
    var lockValue: string
    /** `lockRenewalInterval` is set and not cleared. */
    var renewing: bool
    var client: Option<Client>
    /** How many client handles this session has created. */
    var clientsCreated: nat

    /** A client exists once initialisation succeeded, and renewal runs only
        for an initialised session. */
    predicate Valid()
      reads this
    {
      (initialized ==> client.Some?) && (renewing ==> initialized)
    }

    constructor(sessionId: string)
      ensures this.sessionId == sessionId
      ensures !initialized && qrCode == "" && lockValue == "" && !renewing
      ensures client == None && clientsCreated == 0
      ensures Valid()
    {
      this.sessionId := sessionId;
      initialized := false;
      qrCode := "";
      lockValue := "";
      renewing := false;
      client := None;
      clientsCreated := 0;
    }

    function GetSessionId(): (r: string)
      ensures r == sessionId
    {
      sessionId
    }

    function GetQrCode(): (r: string)
      reads this
      ensures r == qrCode
    {
      qrCode
    }

    function GetClient(): (r: Option<Client>)
      reads this
      ensures r == client
    {
      client
    }

    /** The first half of `initialize`: keep the fresh `token` as the lock
        value and SET NX the lock key with a TTL of `LockInterval`. When the
        key is taken the contention error is thrown and no client is made;
        otherwise a new client handle is created. */
    method BeginInitialize(store: Redis.Store, token: string) returns (r: Result<(), string>)
      requires Valid()
      modifies this, store
      ensures Valid()
      ensures lockValue == token
      ensures r.Ok? <==> LockKey(sessionId) !in old(store.data)
      ensures r.Ok? ==>
        && store.data == old(store.data)[LockKey(sessionId) := Redis.Entry(token, Some(LockInterval))]
        && client == Some(Client(old(clientsCreated), false, false))
        && clientsCreated == old(clientsCreated) + 1
      ensures r.Err? ==>
        && r.error == ContentionError(sessionId)
        && store.data == old(store.data)
        && client == old(client) && clientsCreated == old(clientsCreated)
      ensures initialized == old(initialized) && qrCode == old(qrCode) && renewing == old(renewing)
    {
      lockValue := token;
      var acquired := store.SetExNx(LockKey(sessionId), lockValue, LockInterval);
      if !acquired {
        return Err(ContentionError(sessionId));
      }
      client := Some(Client(clientsCreated, false, false));
      clientsCreated := clientsCreated + 1;
      return Ok(());
    }

    /** `registerEventHandlers`: attaches the listeners to the current client,
        only for an initialised session that has one. */
    method RegisterEventHandlers()
      modifies this
      ensures client == if old(initialized) && old(client).Some?
                        then Some(old(client).value.(listening := true)) else old(client)
      ensures initialized == old(initialized) && qrCode == old(qrCode)
      ensures lockValue == old(lockValue) && renewing == old(renewing)
      ensures clientsCreated == old(clientsCreated)
    {
      if !initialized || client.None? {
        return;
      }
      client := Some(client.value.(listening := true));
    }

    /** The second half of `initialize`. `started` is whether
        `client.initialize()` resolved. On success the session becomes
        initialised, attaches its listeners and starts renewal; a failure is
        logged and swallowed. Either way the `finally` block deletes the lock
        key when, and only when, it still holds this session's token. */
    method FinishInitialize(store: Redis.Store, started: bool)
      requires Valid() && client.Some?
      modifies this, store
      ensures Valid()
      ensures initialized == (old(initialized) || started)
      ensures started ==> client == Some(old(client).value.(listening := true)) && renewing
      ensures !started ==> client == old(client) && renewing == old(renewing)
      ensures store.data == if old(store.Get(LockKey(sessionId))) == Some(lockValue)
                            then old(store.data) - {LockKey(sessionId)}
                            else old(store.data)
      ensures lockValue == old(lockValue) && qrCode == old(qrCode)
      ensures clientsCreated == old(clientsCreated)
    {
      if started {
        initialized := true;
        RegisterEventHandlers();
        renewing := true;
      }
      var currentValue := store.Get(LockKey(sessionId));
      if currentValue == Some(lockValue) {
        var _ := store.Del(LockKey(sessionId));
      }
    }

    /** `initialize`, when no other server touches the key meanwhile. The
        lock is taken and given back within the call, so a successful
        initialisation leaves the store as it found it. */
    method Initialize(store: Redis.Store, token: string, started: bool) returns (r: Result<(), string>)
      requires Valid()
      modifies this, store
      ensures Valid()
      ensures lockValue == token
      ensures r.Ok? <==> LockKey(sessionId) !in old(store.data)
      ensures store.data == old(store.data)
      ensures r.Err? ==>
        && r.error == ContentionError(sessionId)
        && client == old(client) && clientsCreated == old(clientsCreated)
        && initialized == old(initialized) && renewing == old(renewing)
      ensures r.Ok? ==>
        && client == Some(Client(old(clientsCreated), started, false))
        && clientsCreated == old(clientsCreated) + 1
        && initialized == (old(initialized) || started)
        && renewing == (old(renewing) || started)
      ensures qrCode == old(qrCode)
    {
      r := BeginInitialize(store, token);
      if r.Ok? {
        FinishInitialize(store, started);
      }
    }

    /** One firing of the renewal interval. While renewal runs, a lock key
        still holding this session's token gets its TTL reset to
        `LockInterval`; any other content, or no key, stops renewal for good.
        The tick never writes a value and never deletes a key. */
    method RenewTick(store: Redis.Store)
      modifies this, store
      ensures var key := LockKey(sessionId);
        if old(renewing) && old(store.Get(key)) == Some(lockValue) then
          renewing && store.data == old(store.data)[key := Redis.Entry(lockValue, Some(LockInterval))]
        else
          renewing == false && store.data == old(store.data)
      ensures forall k :: k in store.data <==> k in old(store.data)
      ensures forall k :: k in store.data ==> store.data[k].value == old(store.data)[k].value
      ensures initialized == old(initialized) && client == old(client) && qrCode == old(qrCode)
      ensures lockValue == old(lockValue) && clientsCreated == old(clientsCreated)
    {
      if !renewing {
        return;
      }
      var currentValue := store.Get(LockKey(sessionId));
      if currentValue == Some(lockValue) {
        var _ := store.Expire(LockKey(sessionId), LockInterval);
      } else {
        renewing := false;
      }
    }

    /** `killClient`: nothing before initialisation; afterwards the client is
        destroyed and renewal cleared, while `initialized` stays true. */
    method KillClient()
      requires Valid()
      modifies this
      ensures Valid()
      ensures !old(initialized) ==>
        client == old(client) && renewing == old(renewing)
      ensures old(initialized) ==>
        client == Some(old(client).value.(destroyed := true)) && !renewing
      ensures initialized == old(initialized) && qrCode == old(qrCode)
      ensures lockValue == old(lockValue) && clientsCreated == old(clientsCreated)
    {
      if !initialized {
        return;
      }
      client := Some(client.value.(destroyed := true));
      renewing := false;
    }

    /** `restartClient`: nothing before initialisation; afterwards the client
        is killed and replaced by a new handle with listeners attached, whose
        start-up is not awaited. Renewal is not started again. */
    method RestartClient()
      requires Valid()
      modifies this
      ensures Valid()
      ensures !old(initialized) ==>
        client == old(client) && renewing == old(renewing) && clientsCreated == old(clientsCreated)
      ensures old(initialized) ==>
        && client == Some(Client(old(clientsCreated), true, false))
        && clientsCreated == old(clientsCreated) + 1
        && !renewing
      ensures initialized == old(initialized) && qrCode == old(qrCode) && lockValue == old(lockValue)
    {
      if !initialized {
        return;
      }
      KillClient();
      client := Some(Client(clientsCreated, false, false));
      clientsCreated := clientsCreated + 1;
      RegisterEventHandlers();
    }

    /** The listeners fire only on a client that has them and is alive. */
    predicate Listening()
      reads this
    {
      client.Some? && client.value.Delivers()
    }

    /** The `qr` listener: the payload is stored before the owner's callback
        runs, so during and after the callback `GetQrCode()` is the payload. */
    method OnQr(qr: string) returns (calls: seq<Notification>)
      modifies this
      ensures old(Listening()) ==> qrCode == qr && calls == [QrGenerated(GetQrCode())]
      ensures !old(Listening()) ==> qrCode == old(qrCode) && calls == []
      ensures initialized == old(initialized) && client == old(client) && renewing == old(renewing)
      ensures lockValue == old(lockValue) && clientsCreated == old(clientsCreated)
    {
      calls := [];
      if Listening() {
        qrCode := qr;
        calls := [QrGenerated(qr)];
      }
    }

    /** The `ready` listener. */
    method OnReady() returns (calls: seq<Notification>)
      ensures calls == if Listening() then [ClientReady] else []
    {
      calls := if Listening() then [ClientReady] else [];
    }

    /** The `disconnected` listener. */
    method OnDisconnected() returns (calls: seq<Notification>)
      ensures calls == if Listening() then [ClientDisconnected] else []
    {
      calls := if Listening() then [ClientDisconnected] else [];
    }

    /** The `message` listener hands every message to the owner. */
    method OnMessage(message: Message) returns (calls: seq<Notification>)
      ensures calls == if Listening() then [MessageReceived(message)] else []
    {
      calls := [];
      if Listening() {
        calls := [MessageReceived(message)];
      }
    }
  }

  /** `WhatsAppManager`: the registry of sessions by id. */
  class WhatsAppManager {
    var sessions: map<string, WhatsAppSession>

    /** Every registered session is filed under its own id. */
    ghost predicate Valid()
      reads this
    {
      forall id :: id in sessions ==> sessions[id].sessionId == id
    }

    constructor()
      ensures sessions == map[] && Valid()
    {
      sessions := map[];
    }

    /** `createClient`: a registered id is refused; otherwise a new session
        is initialised and filed under the id only once `initialize`
        returned, so a lock contention leaves the registry as it was. */
    method CreateClient(store: Redis.Store, sessionId: string, token: string, started: bool)
      returns (r: Result<WhatsAppSession, string>)
      requires Valid()
      modifies this, store
      ensures Valid()
      ensures sessionId in old(sessions) ==>
        r == Err(ExistsError(sessionId)) && sessions == old(sessions) && store.data == old(store.data)
      ensures sessionId !in old(sessions) ==>
        && (r.Ok? <==> LockKey(sessionId) !in old(store.data))
        && (r.Err? ==> r.error == ContentionError(sessionId) && sessions == old(sessions))
        && (r.Ok? ==> fresh(r.value) && r.value.sessionId == sessionId
                      && r.value.initialized == started
                      && sessions == old(sessions)[sessionId := r.value])
      ensures store.data == old(store.data)
    {
      if sessionId in sessions {
        return Err(ExistsError(sessionId));
      }
      var session := new WhatsAppSession(sessionId);
      var init := session.Initialize(store, token, started);
      if init.Err? {
        return Err(init.error);
      }
      sessions := sessions[sessionId := session];
      return Ok(session);
    }

    /** `getClient`: the session filed under the id, if any. */
    function GetClient(sessionId: string): (r: Option<WhatsAppSession>)
      reads this
      ensures r.Some? <==> sessionId in sessions
      ensures r.Some? ==> r.value == sessions[sessionId]
    {
      if sessionId in sessions then Some(sessions[sessionId]) else None
    }
  }

  /** Two servers start the same session. While the first holds the lock
      (between its SET NX and its `finally`), the second is refused with the
      contention error and makes no client; the first then releases the key. */
  method Contention(store: Redis.Store, sessionId: string, tokenA: string, tokenB: string,
                    started: bool)
    returns (a: WhatsAppSession, b: WhatsAppSession, rb: Result<(), string>)
    requires LockKey(sessionId) !in store.data
    modifies store
    ensures rb == Err(ContentionError(sessionId))
    ensures b.client == None && !b.initialized
    ensures a.initialized == started
    ensures store.data == old(store.data)
  {
    a := new WhatsAppSession(sessionId);
    b := new WhatsAppSession(sessionId);
    var ra := a.BeginInitialize(store, tokenA);
    rb := b.Initialize(store, tokenB, started);
    a.FinishInitialize(store, started);
  }

  /** The first server's lock runs out while its client starts, and a second
      server takes the key. The first server's `finally` leaves the key alone
      because it no longer holds its token. */
  method LapsedLockIsNotReleased(store: Redis.Store, sessionId: string, tokenA: string,
                                 tokenB: string, started: bool)
    returns (a: WhatsAppSession, b: WhatsAppSession)
    requires LockKey(sessionId) !in store.data
    requires tokenA != tokenB
    modifies store
    ensures store.Get(LockKey(sessionId)) == Some(tokenB)
    ensures b.client.Some?
  {
    a := new WhatsAppSession(sessionId);
    b := new WhatsAppSession(sessionId);
    var ra := a.BeginInitialize(store, tokenA);
    store.Lapse(LockKey(sessionId));
    var rb := b.BeginInitialize(store, tokenB);
    a.FinishInitialize(store, started);
  }

  /** Since `initialize` gives the lock back before it returns, the first
      renewal tick of a freshly initialised session finds no key and stops
      renewal. */
  method RenewalStopsAtFirstTick(store: Redis.Store, sessionId: string, token: string)
    returns (s: WhatsAppSession, r: Result<(), string>)
    requires LockKey(sessionId) !in store.data
    modifies store
    ensures r.Ok? && s.initialized
    ensures !s.renewing
    ensures store.data == old(store.data)
  {
    s := new WhatsAppSession(sessionId);
    r := s.Initialize(store, token, true);
    assert s.renewing;
    s.RenewTick(store);
  }

  /** The events a session passes on to its owner, for one `ready`, one
      `disconnected` and one `message` event of its client. */
  method Events(s: WhatsAppSession, m: Message) returns (calls: seq<Notification>)
    ensures s.Listening() ==> calls == [ClientReady, ClientDisconnected, MessageReceived(m)]
    ensures !s.Listening() ==> calls == []
  {
    var ready := s.OnReady();
    var disconnected := s.OnDisconnected();
    var received := s.OnMessage(m);
    calls := ready + disconnected + received;
  }

  /** A new session passes its client's events on exactly when `initialize`
      took the lock and the client started: a lost lock or a failed start-up
      leaves it deaf. */
  method EventsAfterInitialize(store: Redis.Store, sessionId: string, token: string,
                               started: bool, m: Message)
    returns (s: WhatsAppSession, calls: seq<Notification>)
    modifies store
    ensures started && LockKey(sessionId) !in old(store.data) ==>
      calls == [ClientReady, ClientDisconnected, MessageReceived(m)]
    ensures !started || LockKey(sessionId) in old(store.data) ==> calls == []
  {
    s := new WhatsAppSession(sessionId);
    var r := s.Initialize(store, token, started);
    calls := Events(s, m);
  }

  /** Once an initialised session kills its client, no event reaches the
      owner; `restartClient` attaches the listeners to a new client, and the
      events flow again. */
  method EventsAfterKillAndRestart(s: WhatsAppSession, m: Message)
    returns (killed: seq<Notification>, restarted: seq<Notification>)
    requires s.Valid() && s.initialized
    modifies s
    ensures killed == []
    ensures restarted == [ClientReady, ClientDisconnected, MessageReceived(m)]
  {
    s.KillClient();
    killed := Events(s, m);
    s.RestartClient();
    restarted := Events(s, m);
  }

  /** A second `createClient` for an id whose first one succeeded is refused,
      and the registry still hands out the first session. */
  method CreateTwiceRefused(m: WhatsAppManager, store: Redis.Store, sessionId: string,
                            token1: string, token2: string, started: bool)
    returns (r1: Result<WhatsAppSession, string>, r2: Result<WhatsAppSession, string>)
    requires m.Valid() && sessionId !in m.sessions && LockKey(sessionId) !in store.data
    modifies m, store
    ensures r1.Ok? && r2 == Err(ExistsError(sessionId))
    ensures m.GetClient(sessionId) == Some(r1.value)
    ensures r1.value.sessionId == sessionId
  {
    r1 := m.CreateClient(store, sessionId, token1, started);
    r2 := m.CreateClient(store, sessionId, token2, started);
  }
}
