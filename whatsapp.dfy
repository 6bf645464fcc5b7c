/**
 * The session lifecycle: the table of live WhatsApp clients keyed by screen
 * id, the operations that start, destroy, restart and log out a session, and
 * the client event hooks that write the persisted status.
 *
 * The external client is a `Client` object whose fields record what the
 * whatsapp-web.js library would report (`probe`, `pageDefined`) and what the
 * orchestrator has done to it (`initialized`, `destroyed`, `loggedOut`).
 */
module WhatsApp {
  import opened Domain
  import opened InstanceRepository
  import opened UserRepository

  /** The fixed backoff before a failed start is retried. */
  const RetryDelayMs: int := 10000

  /**
   * The clock readings of one `start`, one per attempt: `clock[i]` is when
   * attempt `i` stamps status `initial`, and every attempt but the last has
   * its `initialize()` rejected.
   */
  type Clock = seq<int>

  /** The reading of the last attempt, whose stamp is the one that stays. */
  function LastReading(clock: Clock): int
    requires |clock| > 0
  {
    clock[|clock| - 1]
  }

  /** A rejected attempt is followed by `wait(RetryDelayMs)`, so readings are at least that far apart. */
  ghost predicate Spaced(clock: Clock)
  {
    forall i :: 0 < i < |clock| ==> clock[i] >= clock[i - 1] + RetryDelayMs
  }

  /** After `n` rejections, the stamp that stays is at least `n` delays after the first attempt. */
  lemma {:induction false} SpacedStampIsLate(clock: Clock)
    requires |clock| > 0 && Spaced(clock)
    ensures LastReading(clock) >= clock[0] + RetryDelayMs * (|clock| - 1)
    decreases |clock|
  {
    if |clock| > 1 {
      var earlier := clock[..|clock| - 1];
      assert Spaced(earlier) by {
        forall i | 0 < i < |earlier|
          ensures earlier[i] >= earlier[i - 1] + RetryDelayMs
        {
          assert earlier[i] == clock[i] && earlier[i - 1] == clock[i - 1];
        }
      }
      SpacedStampIsLate(earlier);
      assert LastReading(earlier) == clock[|clock| - 2];
    }
  }

  /** What the client's `getState()` yields right now: a rejection, or a state or `null`. */
  datatype Probe = QueryFails | Reports(state: Option<WAState>)

  /** What `getStatus` makes of a report while the page reference is defined: `null` reads as OPENING. */
  function StatusOf(p: Probe): (s: Option<WAState>)
    ensures p.QueryFails? ==> s == None
    ensures p.Reports? && p.state.Some? ==> s == p.state
    ensures p == Reports(None) ==> s == Some(Opening)
  {
    match p
    case QueryFails => None
    case Reports(state) => if state.Some? then state else Some(Opening)
  }

  /** A live or discarded whatsapp-web.js client. */
  class Client {
    /** The `_id` the `qr` and `authenticated` hooks were registered with. */
    const instanceId: Id
    /** The instance the `disconnected`, `message` and page `close` hooks captured. */
    const instance: Instance
    var probe: Probe
    /**
     * `pupPage !== undefined`. The library starts `pupPage` as `null`, never
     * `undefined`, so this holds for every client; it is kept so that
     * `GetStatus` shows the fallback `getStatus` would take without it.
     */
    var pageDefined: bool
    var initialized: bool
    var destroyed: bool
    var loggedOut: bool

    /** `new Client(...)`: no page yet, so `getState()` rejects. */
    constructor (instanceId: Id, instance: Instance)
      ensures this.instanceId == instanceId && this.instance == instance
      ensures probe == QueryFails && pageDefined
      ensures !initialized && !destroyed && !loggedOut
    {
      this.instanceId := instanceId;
      this.instance := instance;
      probe := QueryFails;
      pageDefined := true;
      initialized, destroyed, loggedOut := false, false, false;
    }

    /**
     * `initialize()`; `rejects` says whether it fails. When it resolves,
     * `ready` is what `getState()` then reports: `null` while WhatsApp Web is
     * still loading, CONNECTED when a saved session was restored, and so on.
     */
    method Initialize(rejects: bool, ready: Probe)
      modifies this
      ensures rejects ==> probe == old(probe) && initialized == old(initialized)
      ensures !rejects ==> initialized && probe == ready
      ensures pageDefined == old(pageDefined) && destroyed == old(destroyed) && loggedOut == old(loggedOut)
    {
      if !rejects {
        initialized := true;
        probe := ready;
      }
    }

    /** `destroy()`: the browser is closed, so later queries reject. */
    method Destroy()
      modifies this
      ensures destroyed && probe == QueryFails
      ensures pageDefined == old(pageDefined) && initialized == old(initialized) && loggedOut == old(loggedOut)
    {
      destroyed := true;
      probe := QueryFails;
    }

    /** `logout()`. */
    method Logout()
      modifies this
      ensures loggedOut
      ensures probe == old(probe) && pageDefined == old(pageDefined)
      ensures initialized == old(initialized) && destroyed == old(destroyed)
    {
      loggedOut := true;
    }

    /** The library changes what it reports (WhatsApp Web connects, pairs, times out, ...). */
    method Observe(p: Probe)
      modifies this
      ensures probe == p
      ensures pageDefined == old(pageDefined) && initialized == old(initialized)
      ensures destroyed == old(destroyed) && loggedOut == old(loggedOut)
    {
      probe := p;
    }
  }

  /** A runtime state under which `start` does nothing. */
  predicate IsLive(s: Option<WAState>)
  {
    s == Some(Connected) || s == Some(Opening)
  }

  /** A message the `send` endpoint is asked to deliver. */
  datatype SendRequest = SendRequest(
    id: Option<Id>, token: Option<string>, to: Option<string>,
    body: Option<string>, document: Option<string>, filename: Option<string>)

  /** The `sendMessage` call `send` makes, if any. */
  datatype Delivery =
    | NotSent
    | TextMessage(client: Client, chatId: string, body: string)
    | MediaMessage(client: Client, chatId: string, url: string)

  class WhatsAppController {
    /** The module-level `screens` map: screen id to client. */
    var screens: map<string, Client>
    const store: InstanceStore
    /** `getScreenId`, from an instance's `_id` and token. */
    const screenIdOf: (Option<Id>, Option<string>) -> Option<string>
    /** `getMessageMediaExtension(filename) !== false`. */
    const hasMediaExtension: string -> bool

    /** No client object is filed under two keys. */
    ghost predicate Valid()
      reads this, store
    {
      && store.Valid()
      && forall k1, k2 :: k1 in screens && k2 in screens && k1 != k2 ==> screens[k1] != screens[k2]
    }

    constructor (store: InstanceStore, screenIdOf: (Option<Id>, Option<string>) -> Option<string>,
                 hasMediaExtension: string -> bool)
      requires store.Valid()
      ensures Valid()
      ensures screens == map[] && this.store == store
      ensures this.screenIdOf == screenIdOf && this.hasMediaExtension == hasMediaExtension
    {
      screens := map[];
      this.store := store;
      this.screenIdOf := screenIdOf;
      this.hasMediaExtension := hasMediaExtension;
    }

    /** The client filed under `key`, if any: all that the session operations on `key` may change. */
    ghost function FiledUnder(key: Option<string>): set<Client>
      reads this
    {
      if key.Some? && key.value in screens then {screens[key.value]} else {}
    }

    function ScreenId(instance: Instance): Option<string>
      reads this
    {
      screenIdOf(instance.id, instance.token)
    }

    /**
     * `getStatus`: never raises. No client, or a query that rejects, gives
     * `undefined`; a reported state is returned as is; a `null` report gives
     * OPENING while the page reference is defined.
     */
    function GetStatus(key: string): (s: Option<WAState>)
      reads this, screens.Values
      ensures key !in screens ==> s == None
      ensures key in screens && screens[key].probe.QueryFails? ==> s == None
      ensures key in screens && screens[key].probe.Reports? && screens[key].probe.state.Some? ==>
        s == screens[key].probe.state
      ensures key in screens && screens[key].probe == Reports(None) ==>
        s == (if screens[key].pageDefined then Some(Opening) else None)
    {
      if key !in screens then None
      else if screens[key].probe == Reports(None) && !screens[key].pageDefined then None
      else StatusOf(screens[key].probe)
    }

    /** `start` goes past its guards: the instance has an `_id` and a screen id, and no live session. */
    ghost predicate Proceeds(instance: Instance)
      reads this, screens.Values
    {
      && instance.id.Some?
      && ScreenId(instance).Some?
      && !IsLive(GetStatus(ScreenId(instance).value))
    }

    /**
     * `destroy(screenId)`: never raises and never removes the entry; an
     * absent key is a no-op.
     */
    method Destroy(key: Option<string>)
      requires Valid()
      modifies FiledUnder(key)
      ensures Valid()
      ensures screens == old(screens)
      ensures key.Some? && key.value in screens ==> screens[key.value].destroyed && GetStatus(key.value) == None
    {
      if key.Some? && key.value in screens {
        var client := screens[key.value];
        client.Destroy();
      }
    }

    /** `restart(instance)`: destroys the instance's client; it starts none and writes nothing. */
    method Restart(instance: Instance)
      requires Valid()
      modifies FiledUnder(ScreenId(instance))
      ensures Valid()
      ensures screens == old(screens)
      ensures var key := ScreenId(instance);
        key.Some? && key.value in screens ==> screens[key.value].destroyed && GetStatus(key.value) == None
    {
      Destroy(ScreenId(instance));
    }

    /**
     * `start(instance, reason)`. `clock` holds one reading per attempt; every
     * attempt but the last has `initialize()` rejected, after which the key's
     * client is destroyed and, `RetryDelayMs` later, `start` runs again with
     * reason `error`. `ready` is what the last client reports once it is up.
     */
    method Start(instance: Instance, reason: StartReason, clock: Clock, ready: Probe)
      requires Valid() && |clock| > 0
      modifies this, store, FiledUnder(ScreenId(instance))
      ensures Valid()
      ensures !old(Proceeds(instance)) ==>
        screens == old(screens) && store.records == old(store.records) && unchanged(screens.Values)
      ensures old(Proceeds(instance)) ==>
        store.records == StatusUpdated(old(store.records), instance.id.value, Initial, LastReading(clock))
      ensures old(Proceeds(instance)) ==>
        var key := ScreenId(instance).value;
        && key in screens && fresh(screens[key])
        && screens == old(screens)[key := screens[key]]
        && screens[key].instance == instance
        && screens[key].initialized && !screens[key].destroyed && !screens[key].loggedOut
        && screens[key].probe == ready && GetStatus(key) == StatusOf(ready)
      ensures old(Proceeds(instance)) && ScreenId(instance).value in old(screens) ==>
        old(screens)[ScreenId(instance).value].destroyed
    {
      if instance.id.None? {
        return;
      }
      var key := ScreenId(instance);
      if key.None? {
        return;
      }
      var status := GetStatus(key.value);
      if status == Some(Connected) || status == Some(Opening) {
        return;
      }
      Launch(instance, key.value, clock, ready);
    }

    /**
     * `start` past its guards. When `initialize()` rejects, the key's client is
     * destroyed and `start` runs again after `RetryDelayMs`; its guards then
     * pass, since a destroyed client reports no state.
     */
    method Launch(instance: Instance, key: string, clock: Clock, ready: Probe)
      requires Valid() && instance.id.Some? && ScreenId(instance) == Some(key) && |clock| > 0
      modifies this, store, FiledUnder(Some(key))
      ensures Valid()
      ensures key in screens && fresh(screens[key]) && screens == old(screens)[key := screens[key]]
      ensures screens[key].instance == instance
      ensures screens[key].initialized && !screens[key].destroyed && !screens[key].loggedOut
      ensures screens[key].probe == ready && GetStatus(key) == StatusOf(ready)
      ensures store.records == StatusUpdated(old(store.records), instance.id.value, Initial, LastReading(clock))
      ensures key in old(screens) ==> old(screens)[key].destroyed
      decreases |clock|, 1
    {
      var client := Attempt(instance, key, clock[0], |clock| > 1, ready);
      if |clock| > 1 {
        Retry(instance, key, clock, ready);
        InitialTwiceKeepsLastStamp(old(store.records), instance.id.value, clock[0], LastReading(clock));
      }
    }

    /**
     * After a rejected attempt: the key's client is destroyed and `start` runs
     * again on the remaining readings.
     */
    method Retry(instance: Instance, key: string, clock: Clock, ready: Probe)
      requires Valid() && instance.id.Some? && ScreenId(instance) == Some(key) && |clock| > 1
      modifies this, store, FiledUnder(Some(key))
      ensures Valid()
      ensures key in screens && fresh(screens[key]) && screens == old(screens)[key := screens[key]]
      ensures screens[key].instance == instance
      ensures screens[key].initialized && !screens[key].destroyed && !screens[key].loggedOut
      ensures screens[key].probe == ready && GetStatus(key) == StatusOf(ready)
      ensures store.records == StatusUpdated(old(store.records), instance.id.value, Initial, LastReading(clock))
      decreases |clock|, 0
    {
      Destroy(Some(key));
      assert Proceeds(instance);
      Launch(instance, key, clock[1..], ready);
      assert LastReading(clock[1..]) == LastReading(clock);
    }

    /**
     * One pass of `start` past its guards: status `initial`, the key's previous
     * client destroyed, a new client filed under the key and initialized.
     */
    method Attempt(instance: Instance, key: string, now: int, rejects: bool, ready: Probe) returns (client: Client)
      requires Valid() && instance.id.Some?
      modifies this, store, FiledUnder(Some(key))
      ensures Valid()
      ensures fresh(client) && screens == old(screens)[key := client]
      ensures client.instance == instance && client.instanceId == instance.id.value
      ensures client.initialized == !rejects && !client.destroyed && !client.loggedOut && client.pageDefined
      ensures client.probe == if rejects then QueryFails else ready
      ensures store.records == StatusUpdated(old(store.records), instance.id.value, Initial, now)
      ensures key in old(screens) ==> old(screens)[key].destroyed
    {
      client := new Client(instance.id.value, instance);
      store.UpdateStatus(instance.id.value, Initial, now);
      Destroy(Some(key));
      screens := screens[key := client];
      client.Initialize(rejects, ready);
    }

    /**
     * `logout(instanceId, token)`: writes status `pending` on the document the
     * id casts to, then logs out the client filed under the text
     * `instanceId ++ token` if there is one. Text that is not an ObjectId makes
     * the write throw before the client is reached; the error is swallowed.
     */
    method Logout(instanceId: string, token: string, now: int)
      requires Valid()
      modifies store, FiledUnder(Some(instanceId + token))
      ensures Valid()
      ensures screens == old(screens)
      ensures !IsObjectId(instanceId) ==> store.records == old(store.records) && unchanged(screens.Values)
      ensures IsObjectId(instanceId) ==>
        store.records == StatusUpdated(old(store.records), Cast(instanceId), Pending, now)
      ensures IsObjectId(instanceId) && instanceId + token in screens ==> screens[instanceId + token].loggedOut
    {
      if !IsObjectId(instanceId) {
        return;
      }
      store.UpdateStatus(Cast(instanceId), Pending, now);
      var key := instanceId + token;
      if key in screens {
        var client := screens[key];
        client.Logout();
      }
    }

    /** The `qr` hook: status `pending`, then the new code. */
    method OnQr(client: Client, qr: string, now: int)
      requires Valid()
      modifies store
      ensures Valid()
      ensures store.records ==
        AfterWrite(StatusUpdated(old(store.records), client.instanceId, Pending, now), client.instanceId, QrIs(qr))
      ensures client.instanceId in store.records ==>
        store.records[client.instanceId].status == Some(Pending) && store.records[client.instanceId].qr == Some(qr)
    {
      store.UpdateStatus(client.instanceId, Pending, now);
      store.UpdateQr(client.instanceId, qr);
    }

    /** The `authenticated` hook. */
    method OnAuthenticated(client: Client, now: int)
      requires Valid()
      modifies store
      ensures Valid()
      ensures store.records == StatusUpdated(old(store.records), client.instanceId, Authenticated, now)
    {
      store.UpdateStatus(client.instanceId, Authenticated, now);
    }

    /** The `disconnected` hook: status `pending`, only for an instance with an `_id`. */
    method OnDisconnected(client: Client, now: int)
      requires Valid()
      modifies store
      ensures Valid()
      ensures client.instance.id.None? ==> store.records == old(store.records)
      ensures client.instance.id.Some? ==>
        store.records == StatusUpdated(old(store.records), client.instance.id.value, Pending, now)
    {
      if client.instance.id.None? {
        return;
      }
      store.UpdateStatus(client.instance.id.value, Pending, now);
    }

    /**
     * `onMessageAsnyc`: a message is handed on only for an instance with an
     * `_id` and an owner that the store still finds by id and owner.
     */
    method OnMessage(client: Client) returns (forwarded: bool)
      requires Valid()
      ensures forwarded <==>
        && client.instance.id.Some? && client.instance.userId.Some?
        && FindByIdAndUserId(store.records, store.users.users,
                             client.instance.id.value, client.instance.userId.value).Some?
    {
      var instance := client.instance;
      if instance.id.None? || instance.userId.None? {
        return false;
      }
      var found := FindByIdAndUserId(store.records, store.users.users, instance.id.value, instance.userId.value);
      forwarded := found.Some?;
    }

    /** The page `close` hook: a fresh start with reason `windowClose`. */
    method OnWindowClose(client: Client, clock: Clock, ready: Probe)
      requires Valid() && |clock| > 0
      modifies this, store, FiledUnder(ScreenId(client.instance))
      ensures Valid()
      ensures !old(Proceeds(client.instance)) ==>
        screens == old(screens) && store.records == old(store.records) && unchanged(screens.Values)
      ensures old(Proceeds(client.instance)) ==>
        store.records == StatusUpdated(old(store.records), client.instance.id.value, Initial, LastReading(clock))
      ensures old(Proceeds(client.instance)) ==>
        var key := ScreenId(client.instance).value;
        && key in screens && fresh(screens[key])
        && screens == old(screens)[key := screens[key]]
        && screens[key].instance == client.instance
        && screens[key].initialized && !screens[key].destroyed && !screens[key].loggedOut
        && screens[key].probe == ready && GetStatus(key) == StatusOf(ready)
      ensures old(Proceeds(client.instance)) && ScreenId(client.instance).value in old(screens) ==>
        old(screens)[ScreenId(client.instance).value].destroyed
    {
      Start(client.instance, ByWindowClose, clock, ready);
    }

    /**
     * `send`: which `sendMessage` call is made. A text needs `to` and `body`;
     * otherwise a document needs a file name with a known extension. Nothing is
     * sent without a screen id or without a client under it.
     */
    method Send(request: SendRequest) returns (d: Delivery)
      ensures d != NotSent ==>
        var key := screenIdOf(request.id, request.token);
        key.Some? && key.value in screens && d.client == screens[key.value]
      ensures d.TextMessage? <==>
        && screenIdOf(request.id, request.token).Some?
        && screenIdOf(request.id, request.token).value in screens
        && request.body.Some? && request.to.Some?
      ensures d.TextMessage? ==> d.chatId == request.to.value + "@c.us" && d.body == request.body.value
      ensures d.MediaMessage? <==>
        && screenIdOf(request.id, request.token).Some?
        && screenIdOf(request.id, request.token).value in screens
        && !(request.body.Some? && request.to.Some?)
        && request.document.Some?
        && hasMediaExtension(if request.filename.Some? then request.filename.value else "")
      ensures d.MediaMessage? ==>
        d.url == request.document.value
        && d.chatId == (if request.to.Some? then request.to.value else "") + "@c.us"
    {
      var key := screenIdOf(request.id, request.token);
      if key.None? {
        return NotSent;
      }
      var client := if key.value in screens then Some(screens[key.value]) else None;
      if request.body.Some? && request.to.Some? {
        d := if client.Some? then TextMessage(client.value, request.to.value + "@c.us", request.body.value) else NotSent;
      } else if request.document.Some? {
        var filename := if request.filename.Some? then request.filename.value else "";
        if !hasMediaExtension(filename) {
          return NotSent;
        }
        var to := if request.to.Some? then request.to.value else "";
        d := if client.Some? then MediaMessage(client.value, to + "@c.us", request.document.value) else NotSent;
      } else {
        d := NotSent;
      }
    }
  }
}
