/**
 * The instance use cases behind the HTTP routes: each checks its input,
 * consults the instance store and the session controller, and answers with a
 * `{statusCode, error?, message?}` envelope.
 */
module InstanceUseCases {
  import opened Domain
  import opened InstanceRepository
  import opened UserRepository
  import opened WhatsApp

  /** One paging parameter of a search as it arrives: missing, empty, or a number (possibly negative). */
  datatype Bound = Absent | Blank | Count(n: int)

  /** A search request; `query` is the filter `findInstanceQuery` builds from it. */
  datatype Search = Search(skip: Bound, limit: Bound, query: Instance -> bool)

  predicate IsBlankBound(b: Bound)
  {
    b.Absent? || b.Blank?
  }

  /** `validateSearchHttp`: the search is rejected when either paging parameter is missing or empty. */
  predicate InvalidSearch(search: Search)
  {
    IsBlankBound(search.skip) || IsBlankBound(search.limit)
  }

  /** Milliseconds in a minute. */
  const Minute: int := 60000

  function Abs(x: int): nat
  {
    if x < 0 then -x else x
  }

  /**
   * The `getQr` guard: a session that reports nothing is restarted when the
   * stored `initialDate` lies less than a minute away from now, on either side.
   * From one minute after `initialDate` on, it is never restarted.
   */
  function ShouldAutoRestart(status: Option<WAState>, initialDate: int, now: int): (restart: bool)
    ensures restart <==> status.None? && now - Minute < initialDate < now + Minute
    ensures now >= initialDate + Minute ==> !restart
  {
    status.None? && Abs(initialDate - now) < Minute
  }

  /** `screenId ?? ''`. */
  function KeyOrEmpty(key: Option<string>): string
  {
    if key.Some? then key.value else ""
  }

  /** The `Instance` use-case object and its collaborators. */
  class InstanceApp {
    const store: InstanceStore
    const controller: WhatsAppController
    /** The instance validator: an error message, or none. */
    const instanceValidator: Instance -> Option<string>
    /** The URL validator applied to `{ webhookUrl }`. */
    const urlValidator: string -> Option<string>

    ghost predicate Valid()
      reads this, controller, store
    {
      controller.store == store && controller.Valid()
    }

    constructor (controller: WhatsAppController, instanceValidator: Instance -> Option<string>,
                 urlValidator: string -> Option<string>)
      requires controller.Valid()
      ensures Valid()
      ensures this.controller == controller && store == controller.store
      ensures this.instanceValidator == instanceValidator && this.urlValidator == urlValidator
    {
      this.controller := controller;
      store := controller.store;
      this.instanceValidator := instanceValidator;
      this.urlValidator := urlValidator;
    }

    /**
     * `save`: a validator error answers 422 and nothing is written or started.
     * Otherwise the instance is written, `start(saved, 'start')` runs, and the
     * answer is 200 with the saved instance.
     */
    method Save(instance: Instance, monthLater: int, freshId: Id, freshToken: string, clock: Clock, ready: Probe)
      returns (e: Envelope)
      requires Valid() && freshId !in store.records && |clock| > 0
      modifies store, controller,
        controller.FiledUnder(controller.ScreenId(UpdateResult(instance, monthLater, freshId, freshToken)))
      ensures Valid()
      ensures instanceValidator(instance).Some? ==>
        && e == Envelope(Some(422), instanceValidator(instance), NoMessage)
        && unchanged(store) && unchanged(controller) && unchanged(controller.screens.Values)
      ensures instanceValidator(instance).None? ==>
        e == Success(200, SavedInstance(UpdateResult(instance, monthLater, freshId, freshToken),
                                        "Instance saved successfully"))
      ensures instanceValidator(instance).None? ==>
        var saved := UpdateResult(instance, monthLater, freshId, freshToken);
        var written := Updated(old(store.records), instance, monthLater, freshId, freshToken);
        if old(controller.Proceeds(saved)) then
          var key := controller.ScreenId(saved).value;
          && store.records == StatusUpdated(written, saved.id.value, Initial, LastReading(clock))
          && key in controller.screens && fresh(controller.screens[key])
          && controller.screens == old(controller.screens)[key := controller.screens[key]]
          && controller.screens[key].instance == saved && controller.screens[key].initialized
          && controller.GetStatus(key) == StatusOf(ready)
          && (key in old(controller.screens) ==> old(controller.screens)[key].destroyed)
        else
          && store.records == written && controller.screens == old(controller.screens)
          && unchanged(controller.screens.Values)
    {
      var error := instanceValidator(instance);
      if error.Some? {
        return Envelope(Some(422), error, NoMessage);
      }
      var saved := store.Update(instance, monthLater, freshId, freshToken);
      controller.Start(saved, ByStart, clock, ready);
      e := Success(200, SavedInstance(saved, "Instance saved successfully"));
    }

    /** `findById`: 200 with the record the id and owner (or an administrator) find, else 422. */
    method FindById(id: string, userId: string) returns (e: Envelope)
      requires Valid()
      ensures e.statusCode == Some(200) <==>
        IsObjectId(id) && Cast(id) in store.records
        && (IsAdmin(store.users.users, userId) || store.records[Cast(id)].userId == Some(userId))
      ensures e.statusCode == Some(200) ==>
        e.error.None? && e.message.OneInstance?
        && e.message.found.id == Some(Cast(id)) && e.message.found.userId.None?
        && SameOutside(store.records[Cast(id)], e.message.found, {UserIdField})
      ensures e.statusCode != Some(200) ==>
        e == Failure(422, "Instance " + id + " not found", Text("Instance not found"))
    {
      var found := FindByIdAndUserId(store.records, store.users.users, id, userId);
      if found.None? {
        return Failure(422, "Instance " + id + " not found", Text("Instance not found"));
      }
      e := Success(200, OneInstance(found.value));
    }

    /**
     * `get`: 400 'Invalid search' exactly when a paging parameter is missing or
     * empty. A negative skip makes the query fail, so the call rejects; a
     * negative limit asks Mongo for one batch of at most that many records.
     * Otherwise the answer is 200 with the page of matching records, newest
     * `_id` first.
     */
    method Get(search: Search, userId: string) returns (o: Outcome<Envelope>)
      requires Valid()
      ensures InvalidSearch(search) <==> o == Returned(Envelope(Some(400), None, Text("Invalid search")))
      ensures !InvalidSearch(search) && search.skip.n < 0 ==> o == Threw
      ensures !InvalidSearch(search) && search.skip.n >= 0 ==>
        o == Returned(Success(200, Instances(Listed(store.records, search.query, search.skip.n, Abs(search.limit.n)))))
    {
      if InvalidSearch(search) {
        return Returned(Envelope(Some(400), None, Text("Invalid search")));
      }
      if search.skip.n < 0 {
        return Threw;
      }
      var listed := Listed(store.records, search.query, search.skip.n, Abs(search.limit.n));
      o := Returned(Success(200, Instances(listed)));
    }

    /**
     * `delete`: removes the record the owner names and answers 200 'ok'; an id
     * that is not an ObjectId makes the call reject. The session table is not
     * touched.
     */
    method Delete(id: string, userId: string) returns (o: Outcome<Envelope>)
      requires Valid()
      modifies store
      ensures Valid()
      ensures !IsObjectId(id) ==> o == Threw && store.records == old(store.records)
      ensures IsObjectId(id) ==>
        o == Returned(Success(200, Text("ok"))) && store.records == Deleted(old(store.records), id, userId)
      ensures controller.screens == old(controller.screens)
    {
      var deleted := store.Delete(id, userId);
      if deleted.Threw? {
        return Threw;
      }
      o := Returned(Success(200, Text("ok")));
    }

    /** The record `getQr`, `restart` and `getRealStatus` look up by id and token. */
    function Found(id: Option<string>, token: Option<string>): (r: Option<Instance>)
      reads this, controller, store
      requires Valid()
      ensures r.Some? ==> token.Some? && id.Some? && r.value.id == Some(Cast(id.value)) && r.value.token == token
      ensures r.Some? <==>
        !IsBlank(token) && id.Some? && IsObjectId(id.value) && Cast(id.value) in store.records
        && store.records[Cast(id.value)].token == token
    {
      if IsBlank(token) then None else FindByIdAndToken(store.records, id, token.value)
    }

    /** The screen id of the record `Found` returns: the key the controller's `restart` acts on. */
    function FoundKey(id: Option<string>, token: Option<string>): Option<string>
      reads this, controller, store
      requires Valid()
    {
      if Found(id, token).Some? then controller.ScreenId(Found(id, token).value) else None
    }

    /** `getQr` calls the controller's restart: the lookup succeeds, the record has an `initialDate`, and the guard holds. */
    ghost predicate RestartsSession(id: Option<string>, token: Option<string>, status: Option<WAState>, now: int)
      reads this, controller, store
      requires Valid()
    {
      && Found(id, token).Some?
      && !IsBlank(controller.screenIdOf(id, token))
      && Found(id, token).value.initialDate.Some?
      && ShouldAutoRestart(status, Found(id, token).value.initialDate.value, now)
    }

    /**
     * `getQr`: 422 on an empty token, and 422 when the id and token find no
     * record or give no screen id. Otherwise the runtime status is read under
     * the screen id of the text given; a record without `initialDate` makes
     * the call reject; else, when `ShouldAutoRestart` holds, the found
     * record's session is restarted, and the answer is 200 with the stored
     * `qr` and `status`.
     */
    method GetQr(id: Option<string>, token: Option<string>, now: int) returns (o: Outcome<Envelope>)
      requires Valid()
      modifies controller.FiledUnder(FoundKey(id, token))
      ensures Valid()
      ensures controller.screens == old(controller.screens) && store.records == old(store.records)
      ensures IsBlank(token) ==>
        o == Returned(Failure(422, "Token cannot be empty or undefined ", Text("Invalid instance")))
      ensures !IsBlank(token) && (Found(id, token).None? || IsBlank(controller.screenIdOf(id, token))) ==>
        o == Returned(Failure(422, "instance id or token is invalid", Text("Invalid instance")))
      ensures Found(id, token).Some? && !IsBlank(controller.screenIdOf(id, token)) ==>
        var found := Found(id, token).value;
        var key := controller.screenIdOf(id, token).value;
        && (found.initialDate.None? ==> o == Threw)
        && (found.initialDate.Some? ==> o == Returned(Success(200, QrAndStatus(found.qr, found.status))))
        && (found.initialDate.Some? && ShouldAutoRestart(old(controller.GetStatus(key)), found.initialDate.value, now)
            && FoundKey(id, token).Some? && FoundKey(id, token).value in controller.screens ==>
              && controller.screens[FoundKey(id, token).value].destroyed
              && controller.GetStatus(FoundKey(id, token).value) == None)
      ensures var key := KeyOrEmpty(controller.screenIdOf(id, token));
        !RestartsSession(id, token, old(controller.GetStatus(key)), now) ==>
        unchanged(controller.screens.Values)
    {
      if IsBlank(token) {
        return Returned(Failure(422, "Token cannot be empty or undefined ", Text("Invalid instance")));
      }
      var screenId := controller.screenIdOf(id, token);
      var instance := FindByIdAndToken(store.records, id, token.value);
      if instance.None? || IsBlank(screenId) {
        return Returned(Failure(422, "instance id or token is invalid", Text("Invalid instance")));
      }
      var screenStatus := controller.GetStatus(screenId.value);
      if instance.value.initialDate.None? {
        return Threw;
      }
      if ShouldAutoRestart(screenStatus, instance.value.initialDate.value, now) {
        controller.Restart(instance.value);
      }
      o := Returned(Success(200, QrAndStatus(instance.value.qr, instance.value.status)));
    }

    /**
     * `saveWebhookUrl`: a URL-validator error answers 422 with no write; an id
     * that is not an ObjectId makes the call reject; otherwise the URL is
     * stored on the record the id casts to.
     */
    method SaveWebhookUrl(id: string, webhookUrl: string) returns (o: Outcome<Envelope>)
      requires Valid()
      modifies store
      ensures Valid()
      ensures urlValidator(webhookUrl).Some? ==>
        o == Returned(Envelope(Some(422), urlValidator(webhookUrl), NoMessage)) && store.records == old(store.records)
      ensures urlValidator(webhookUrl).None? && !IsObjectId(id) ==> o == Threw && store.records == old(store.records)
      ensures urlValidator(webhookUrl).None? && IsObjectId(id) ==>
        o == Returned(Success(200, Text("Save Success")))
        && store.records == AfterWrite(old(store.records), Cast(id), WebhookUrlIs(webhookUrl))
    {
      var error := urlValidator(webhookUrl);
      if error.Some? {
        return Returned(Envelope(Some(422), error, NoMessage));
      }
      var saved := store.SaveWebhookUrl(id, webhookUrl);
      if saved.Threw? {
        return Threw;
      }
      o := Returned(Success(200, Text("Save Success")));
    }

    /**
     * `saveName`: an empty or missing name answers 422 with no write; an id
     * that is not an ObjectId makes the call reject; otherwise the name is
     * stored on the record the id casts to.
     */
    method SaveName(id: string, name: Option<string>) returns (o: Outcome<Envelope>)
      requires Valid()
      modifies store
      ensures Valid()
      ensures IsBlank(name) ==>
        o == Returned(Failure(422, "Name cannot be empty or undefined", Text("Invalid name")))
        && store.records == old(store.records)
      ensures !IsBlank(name) && !IsObjectId(id) ==> o == Threw && store.records == old(store.records)
      ensures !IsBlank(name) && IsObjectId(id) ==>
        o == Returned(Success(200, Text("Name save success")))
        && store.records == AfterWrite(old(store.records), Cast(id), NameIs(name.value))
    {
      if IsBlank(name) {
        return Returned(Failure(422, "Name cannot be empty or undefined", Text("Invalid name")));
      }
      var saved := store.SaveName(id, name.value);
      if saved.Threw? {
        return Threw;
      }
      o := Returned(Success(200, Text("Name save success")));
    }

    /**
     * `restart`: 422 on an empty token, 404 when the id and token find no
     * record; otherwise the controller's restart destroys the session and the
     * answer is 200. No status is written and no client is started.
     */
    method Restart(id: Option<string>, token: Option<string>) returns (e: Envelope)
      requires Valid()
      modifies controller.FiledUnder(FoundKey(id, token))
      ensures Valid()
      ensures controller.screens == old(controller.screens) && store.records == old(store.records)
      ensures IsBlank(token) ==> e == Envelope(Some(422), Some("Token is required"), NoMessage)
      ensures !IsBlank(token) && Found(id, token).None? ==>
        e == Envelope(Some(404), Some("Instance does not exist"), NoMessage)
      ensures Found(id, token).Some? ==> e == Success(200, Text("Instance restarted successfully"))
      ensures Found(id, token).Some? ==>
        var key := FoundKey(id, token);
        key.Some? && key.value in controller.screens ==>
          controller.screens[key.value].destroyed && controller.GetStatus(key.value) == None
      ensures Found(id, token).None? ==> unchanged(controller.screens.Values)
    {
      if IsBlank(token) {
        return Envelope(Some(422), Some("Token is required"), NoMessage);
      }
      var instance := FindByIdAndToken(store.records, id, token.value);
      if instance.None? {
        return Envelope(Some(404), Some("Instance does not exist"), NoMessage);
      }
      controller.Restart(instance.value);
      e := Success(200, Text("Instance restarted successfully"));
    }

    /**
     * `getRealStatus`: the same guards as `restart`; then 200 with the
     * runtime status of the record's session (the empty key when it has none).
     */
    method GetRealStatus(id: Option<string>, token: Option<string>) returns (e: Envelope)
      requires Valid()
      ensures IsBlank(token) ==> e == Envelope(Some(422), Some("Token is required"), NoMessage)
      ensures !IsBlank(token) && Found(id, token).None? ==>
        e == Envelope(Some(404), Some("Instance does not exist"), NoMessage)
      ensures Found(id, token).Some? ==>
        e == Success(200, RealStatus(controller.GetStatus(KeyOrEmpty(FoundKey(id, token)))))
      ensures e.message.RealStatus? && e.message.state.Some? ==>
        Found(id, token).Some? && KeyOrEmpty(FoundKey(id, token)) in controller.screens
    {
      if IsBlank(token) {
        return Envelope(Some(422), Some("Token is required"), NoMessage);
      }
      var instance := FindByIdAndToken(store.records, id, token.value);
      if instance.None? {
        return Envelope(Some(404), Some("Instance does not exist"), NoMessage);
      }
      var screenId := controller.ScreenId(instance.value);
      var status := controller.GetStatus(KeyOrEmpty(screenId));
      e := Success(200, RealStatus(status));
    }

    /**
     * `logout`: 422 unless both id and token are given; otherwise the
     * controller's logout runs (it never raises) and the answer is 200.
     */
    method Logout(id: Option<string>, token: Option<string>, now: int) returns (e: Envelope)
      requires Valid()
      modifies store, controller.FiledUnder(if id.Some? && token.Some? then Some(id.value + token.value) else None)
      ensures Valid()
      ensures controller.screens == old(controller.screens)
      ensures IsBlank(id) || IsBlank(token) ==>
        e == Envelope(Some(422), Some("instance id and token are required"), NoMessage)
        && store.records == old(store.records)
      ensures !IsBlank(id) && !IsBlank(token) ==> e == Success(200, Text("Logout completed successfully"))
      ensures !IsBlank(id) && !IsBlank(token) && !IsObjectId(id.value) ==>
        store.records == old(store.records) && unchanged(controller.screens.Values)
      ensures !IsBlank(id) && !IsBlank(token) && IsObjectId(id.value) ==>
        && store.records == StatusUpdated(old(store.records), Cast(id.value), Pending, now)
        && (id.value + token.value in controller.screens ==> controller.screens[id.value + token.value].loggedOut)
    {
      if IsBlank(id) || IsBlank(token) {
        return Envelope(Some(422), Some("instance id and token are required"), NoMessage);
      }
      controller.Logout(id.value, token.value, now);
      e := Success(200, Text("Logout completed successfully"));
    }
  }
}
