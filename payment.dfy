/**
 * The billing bridge: capturing a paid subscription activates its instance
 * and starts its session; the provider's cancellation event suspends the
 * instance, ends its session and links it to a fresh subscription.
 *
 * The billing provider's replies are parameters: the subscription it creates
 * and the status it reports for a subscription.
 */
module Payment {
  import opened Domain
  import opened InstanceRepository
  import opened UserRepository
  import opened WhatsApp

  /** The subscription status that means "paid". */
  const Active: string := "ACTIVE"

  /** The provider event type that cancels a subscription. */
  const CancelledEvent: string := "BILLING.SUBSCRIPTION.CANCELLED"

  /** A stored subscription, keyed by the provider's subscription id. */
  datatype Subscription = Subscription(id: string, status: string, userId: Option<string>, instanceId: Option<Id>)

  type Subscriptions = map<string, Subscription>

  /** A subscription as the provider returns it; `links` are the `href`s in order. */
  datatype ProviderSubscription = ProviderSubscription(id: string, status: string, links: seq<string>)

  /** A webhook body: its `event_type` and `resource.id`. */
  datatype Event = Event(eventType: string, resourceId: string)

  /** `eventsControls` acts only on a cancellation. */
  predicate IsCancellation(event: Event)
  {
    event.eventType == CancelledEvent
  }

  /** The record `saveSubscription` stores for a created subscription. */
  function Created(reply: ProviderSubscription, owner: string): Subscription
  {
    Subscription(reply.id, reply.status, Some(owner), None)
  }

  /** `paymentRepository.updateStatus(id, status)`. */
  function WithStatus(p: Subscriptions, id: string, status: string): (p': Subscriptions)
    ensures p'.Keys == p.Keys
    ensures id in p ==> p'[id] == p[id].(status := status)
    ensures forall k :: k in p && k != id ==> p'[k] == p[k]
  {
    if id in p then p[id := p[id].(status := status)] else p
  }

  /** `paymentRepository.updateInstanceId(id, instanceId)`. */
  function WithInstance(p: Subscriptions, id: string, instanceId: Id): (p': Subscriptions)
    ensures p'.Keys == p.Keys
    ensures id in p ==> p'[id] == p[id].(instanceId := Some(instanceId))
    ensures forall k :: k in p && k != id ==> p'[k] == p[k]
  {
    if id in p then p[id := p[id].(instanceId := Some(instanceId))] else p
  }

  // ---------------------------------------------------------------------------
  // cancelSubscription, as functions of the stores it reads
  // ---------------------------------------------------------------------------

  /** The owner `cancelSubscription` looks up for the instance a subscription belongs to. */
  function Owner(m: Records, users: map<string, User>, subscriptionId: string): (u: Option<User>)
    requires WellKeyed(m)
    ensures u.Some? ==> FindBySubscription(m, subscriptionId).Some?
  {
    var found := FindBySubscription(m, subscriptionId);
    if found.None? then None else FindUser(users, found.value.userId)
  }

  /**
   * `cancelSubscription` rejects: the owner exists and the provider's reply
   * fails validation, or carries no link to read `links[0]` from.
   */
  predicate CancelThrows(m: Records, users: map<string, User>, subscriptionId: string,
                         reply: ProviderSubscription, replyError: Option<string>)
    requires WellKeyed(m)
  {
    Owner(m, users, subscriptionId).Some? && (replyError.Some? || reply.links == [])
  }

  /** The instance is relinked to the new subscription: the owner exists and the reply is valid and has a link. */
  predicate Relinks(m: Records, users: map<string, User>, subscriptionId: string,
                    reply: ProviderSubscription, replyError: Option<string>)
    requires WellKeyed(m)
  {
    Owner(m, users, subscriptionId).Some? && replyError.None? && reply.links != []
  }

  /**
   * The instance store after `cancelSubscription`. The instance the
   * subscription belongs to is set to `unpayment` whatever follows; when it is
   * relinked it also gets the new subscription id, no end of service and the
   * first payment link. No other record changes.
   */
  function CancelledRecords(m: Records, users: map<string, User>, subscriptionId: string,
                            reply: ProviderSubscription, replyError: Option<string>): (m': Records)
    requires WellKeyed(m)
    ensures m'.Keys == m.Keys && WellKeyed(m')
    ensures FindBySubscription(m, subscriptionId).None? ==> m' == m
  {
    var found := FindBySubscription(m, subscriptionId);
    if found.None? then m
    else
      var id := found.value.id.value;
      var suspended := StatusUpdated(m, id, Unpayment, 0);
      if !Relinks(m, users, subscriptionId, reply, replyError) then suspended
      else Relinked(suspended, id, reply.id, reply.links[0])
  }

  /** A cancellation suspends the instance and leaves every other record as it was. */
  lemma CancelSuspends(m: Records, users: map<string, User>, subscriptionId: string,
                       reply: ProviderSubscription, replyError: Option<string>)
    requires WellKeyed(m) && FindBySubscription(m, subscriptionId).Some?
    ensures var id := FindBySubscription(m, subscriptionId).value.id.value;
      var m' := CancelledRecords(m, users, subscriptionId, reply, replyError);
      && m'[id].status == Some(Unpayment)
      && (forall k :: k in m && k != id ==> m'[k] == m[k])
  {
    var id := FindBySubscription(m, subscriptionId).value.id.value;
    var suspended := StatusUpdated(m, id, Unpayment, 0);
    if Relinks(m, users, subscriptionId, reply, replyError) {
      var r := Relinked(suspended, id, reply.id, reply.links[0]);
      assert CancelledRecords(m, users, subscriptionId, reply, replyError) == r;
      assert r[id].status == suspended[id].status;
    }
  }

  /** Without a relink, the status is all a cancellation changes in the instance. */
  lemma CancelWithoutRelinkSuspendsOnly(m: Records, users: map<string, User>, subscriptionId: string,
                                        reply: ProviderSubscription, replyError: Option<string>)
    requires WellKeyed(m) && FindBySubscription(m, subscriptionId).Some?
    requires !Relinks(m, users, subscriptionId, reply, replyError)
    ensures var id := FindBySubscription(m, subscriptionId).value.id.value;
      SameOutside(m[id], CancelledRecords(m, users, subscriptionId, reply, replyError)[id], {StatusField})
  {
    var id := FindBySubscription(m, subscriptionId).value.id.value;
    StatusUpdateKeepsOtherFields(m, id, Unpayment, 0);
  }

  /**
   * A relinking cancellation gives the instance the new subscription id, no
   * end of service and the reply's first link, besides status `unpayment`,
   * and changes no other field of it.
   */
  lemma CancelRelinks(m: Records, users: map<string, User>, subscriptionId: string,
                      reply: ProviderSubscription, replyError: Option<string>)
    requires WellKeyed(m) && Relinks(m, users, subscriptionId, reply, replyError)
    ensures var id := FindBySubscription(m, subscriptionId).value.id.value;
      var m' := CancelledRecords(m, users, subscriptionId, reply, replyError);
      && m'[id].subscriptionId == Some(reply.id)
      && m'[id].endService.None?
      && m'[id].paymentLink == Some(reply.links[0])
      && SameOutside(m[id], m'[id], {StatusField, SubscriptionIdField, EndServiceField, PaymentLinkField})
  {
    var id := FindBySubscription(m, subscriptionId).value.id.value;
    var suspended := StatusUpdated(m, id, Unpayment, 0);
    var r := Relinked(suspended, id, reply.id, reply.links[0]);
    assert CancelledRecords(m, users, subscriptionId, reply, replyError) == r;
    StatusUpdateKeepsOtherFields(m, id, Unpayment, 0);
    SameOutsideGrows(m[id], suspended[id], r[id], {StatusField}, {SubscriptionIdField, EndServiceField, PaymentLinkField});
  }

  /** The three writes that tie an instance to a new subscription. */
  function Relinked(m: Records, id: Id, subscriptionId: string, link: string): (m': Records)
    requires id in m
    ensures m'.Keys == m.Keys
    ensures forall k :: k in m && k != id ==> m'[k] == m[k]
    ensures m'[id] == m[id].(subscriptionId := Some(subscriptionId), endService := None, paymentLink := Some(link))
    ensures WellKeyed(m) ==> WellKeyed(m')
  {
    var linked := AfterWrite(m, id, SubscriptionIdIs(subscriptionId));
    var ended := AfterWrite(linked, id, EndServiceIs(None));
    AfterWrite(ended, id, PaymentLinkIs(link))
  }

  /**
   * The subscriptions after `cancelSubscription`. A valid reply for an
   * existing owner is stored as a new subscription of that owner; it is tied
   * to the instance only when the instance is relinked.
   */
  function CancelledPayments(p: Subscriptions, m: Records, users: map<string, User>, subscriptionId: string,
                             reply: ProviderSubscription, replyError: Option<string>): (p': Subscriptions)
    requires WellKeyed(m)
    ensures Owner(m, users, subscriptionId).None? || replyError.Some? ==> p' == p
    ensures Owner(m, users, subscriptionId).Some? && replyError.None? ==>
      && p'.Keys == p.Keys + {reply.id}
      && p'[reply.id].userId == Some(Owner(m, users, subscriptionId).value.id)
      && p'[reply.id].status == reply.status
      && (reply.links != [] ==> p'[reply.id].instanceId == FindBySubscription(m, subscriptionId).value.id)
      && (reply.links == [] ==> p'[reply.id].instanceId.None?)
      && forall k :: k in p && k != reply.id ==> p'[k] == p[k]
  {
    var owner := Owner(m, users, subscriptionId);
    if owner.None? || replyError.Some? then p
    else
      var saved := p[reply.id := Created(reply, owner.value.id)];
      if reply.links == [] then saved
      else WithInstance(saved, reply.id, FindBySubscription(m, subscriptionId).value.id.value)
  }

  /** The owner and the rejection, once the instance is found. */
  lemma CancelOwner(m: Records, users: map<string, User>, subscriptionId: string,
                    reply: ProviderSubscription, replyError: Option<string>)
    requires WellKeyed(m) && FindBySubscription(m, subscriptionId).Some?
    ensures var owner := FindUser(users, FindBySubscription(m, subscriptionId).value.userId);
      && Owner(m, users, subscriptionId) == owner
      && CancelThrows(m, users, subscriptionId, reply, replyError) == (owner.Some? && (replyError.Some? || reply.links == []))
      && Relinks(m, users, subscriptionId, reply, replyError) == (owner.Some? && replyError.None? && reply.links != [])
  {
  }

  /**
   * An instance without `userId` still has an owner whenever the user
   * directory is not empty, because the lookup runs with no `_id` filter; a
   * valid reply with a link then relinks the instance to a subscription
   * created for that user.
   */
  lemma OwnerlessInstanceRelinks(m: Records, users: map<string, User>, subscriptionId: string,
                                 reply: ProviderSubscription, replyError: Option<string>)
    requires WellKeyed(m) && FindBySubscription(m, subscriptionId).Some?
    requires FindBySubscription(m, subscriptionId).value.userId.None? && users != map[]
    requires replyError.None? && reply.links != []
    ensures Owner(m, users, subscriptionId).Some?
    ensures Owner(m, users, subscriptionId).value in users.Values
    ensures Relinks(m, users, subscriptionId, reply, replyError)
    ensures !CancelThrows(m, users, subscriptionId, reply, replyError)
  {
  }

  /** The stores after a cancellation that relinks. */
  lemma CancelRelinkStores(m: Records, p: Subscriptions, users: map<string, User>, subscriptionId: string,
                           reply: ProviderSubscription, replyError: Option<string>)
    requires WellKeyed(m) && Relinks(m, users, subscriptionId, reply, replyError)
    ensures var id := FindBySubscription(m, subscriptionId).value.id.value;
      && CancelledRecords(m, users, subscriptionId, reply, replyError)
         == Relinked(StatusUpdated(m, id, Unpayment, 0), id, reply.id, reply.links[0])
      && CancelledPayments(p, m, users, subscriptionId, reply, replyError)
         == WithInstance(p[reply.id := Created(reply, Owner(m, users, subscriptionId).value.id)], reply.id, id)
  {
  }

  /** The stores after a cancellation that saves the new subscription but has no link to relink with. */
  lemma CancelWithoutLinkStores(m: Records, p: Subscriptions, users: map<string, User>, subscriptionId: string,
                                reply: ProviderSubscription, replyError: Option<string>)
    requires WellKeyed(m) && Owner(m, users, subscriptionId).Some? && replyError.None? && reply.links == []
    ensures var id := FindBySubscription(m, subscriptionId).value.id.value;
      && CancelledRecords(m, users, subscriptionId, reply, replyError) == StatusUpdated(m, id, Unpayment, 0)
      && CancelledPayments(p, m, users, subscriptionId, reply, replyError)
         == p[reply.id := Created(reply, Owner(m, users, subscriptionId).value.id)]
  {
  }

  /** The stores after a cancellation whose owner is missing or whose reply is invalid. */
  lemma CancelWithoutOwnerStores(m: Records, p: Subscriptions, users: map<string, User>, subscriptionId: string,
                                 reply: ProviderSubscription, replyError: Option<string>)
    requires WellKeyed(m) && FindBySubscription(m, subscriptionId).Some?
    requires Owner(m, users, subscriptionId).None? || replyError.Some?
    ensures var id := FindBySubscription(m, subscriptionId).value.id.value;
      && CancelledRecords(m, users, subscriptionId, reply, replyError) == StatusUpdated(m, id, Unpayment, 0)
      && CancelledPayments(p, m, users, subscriptionId, reply, replyError) == p
  {
  }

  /** A cancellation that rejects has still suspended the instance, and done nothing more to the store. */
  lemma CancelAlwaysSuspends(m: Records, users: map<string, User>, subscriptionId: string,
                             reply: ProviderSubscription, replyError: Option<string>)
    requires WellKeyed(m)
    requires CancelThrows(m, users, subscriptionId, reply, replyError)
    ensures var id := FindBySubscription(m, subscriptionId).value.id.value;
      CancelledRecords(m, users, subscriptionId, reply, replyError) == StatusUpdated(m, id, Unpayment, 0)
  {
  }

  /**
   * Why `captureSubscription` stops early, if it does: a missing subscription
   * (404), one already ACTIVE (201), one without an instance (404), or one the
   * provider does not report ACTIVE (422).
   */
  function CaptureRefusal(p: Subscriptions, m: Records, subscriptionId: string, providerStatus: string): (r: Option<Envelope>)
    requires WellKeyed(m)
    ensures subscriptionId !in p ==> r == Some(Success(404, Text("Subscription not exist")))
    ensures subscriptionId in p && p[subscriptionId].status == Active ==>
      r == Some(Success(201, Text("Subscription activated")))
    ensures subscriptionId in p && p[subscriptionId].status != Active && FindBySubscription(m, subscriptionId).None? ==>
      r == Some(Failure(404, "The subscription do not have any instance", Text("Instance not found")))
    ensures subscriptionId in p && p[subscriptionId].status != Active && FindBySubscription(m, subscriptionId).Some?
            && providerStatus != Active ==>
      r == Some(Failure(422, "The subscription needs to be active", Text("The subscription is not active")))
    ensures r.None? <==>
      subscriptionId in p && p[subscriptionId].status != Active
      && FindBySubscription(m, subscriptionId).Some? && providerStatus == Active
    ensures r.Some? ==> r.value.statusCode.Some?
  {
    if subscriptionId !in p then Some(Success(404, Text("Subscription not exist")))
    else if p[subscriptionId].status == Active then Some(Success(201, Text("Subscription activated")))
    else if FindBySubscription(m, subscriptionId).None? then
      Some(Failure(404, "The subscription do not have any instance", Text("Instance not found")))
    else if providerStatus != Active then
      Some(Failure(422, "The subscription needs to be active", Text("The subscription is not active")))
    else None
  }

  /** A captured subscription is refused on a second capture: capturing is idempotent. */
  lemma CaptureTwiceIsRefused(p: Subscriptions, m: Records, subscriptionId: string, providerStatus: string)
    requires WellKeyed(m)
    requires CaptureRefusal(p, m, subscriptionId, providerStatus).None?
    ensures CaptureRefusal(WithStatus(p, subscriptionId, Active), m, subscriptionId, providerStatus)
         == Some(Success(201, Text("Subscription activated")))
  {
  }

  /** The payment repository: subscriptions keyed by the provider's id. */
  class PaymentStore {
    var subscriptions: Subscriptions

    constructor (subscriptions: Subscriptions)
      ensures this.subscriptions == subscriptions
    {
      this.subscriptions := subscriptions;
    }

    method SaveSubscription(s: Subscription)
      modifies this
      ensures subscriptions == old(subscriptions)[s.id := s]
    {
      subscriptions := subscriptions[s.id := s];
    }

    method UpdateStatus(id: string, status: string)
      modifies this
      ensures subscriptions == WithStatus(old(subscriptions), id, status)
    {
      subscriptions := WithStatus(subscriptions, id, status);
    }

    method UpdateInstanceId(id: string, instanceId: Id)
      modifies this
      ensures subscriptions == WithInstance(old(subscriptions), id, instanceId)
    {
      subscriptions := WithInstance(subscriptions, id, instanceId);
    }
  }

  /** `PaymentApp` and its collaborators; the user directory is the instance store's. */
  class PaymentApp {
    const instances: InstanceStore
    const payments: PaymentStore
    const controller: WhatsAppController
    /** The validator of the provider's reply to a subscription request. */
    const subscriptionValidator: ProviderSubscription -> Option<string>

    ghost predicate Valid()
      reads this, controller, instances
    {
      controller.store == instances && controller.Valid()
    }

    constructor (controller: WhatsAppController, payments: PaymentStore,
                 subscriptionValidator: ProviderSubscription -> Option<string>)
      requires controller.Valid()
      ensures Valid()
      ensures this.controller == controller && instances == controller.store && this.payments == payments
      ensures this.subscriptionValidator == subscriptionValidator
    {
      this.controller := controller;
      instances := controller.store;
      this.payments := payments;
      this.subscriptionValidator := subscriptionValidator;
    }

    /** The instance `findOne({ subscriptionId })` returns. */
    function InstanceFor(subscriptionId: string): (r: Option<Instance>)
      reads this, controller, instances
      requires Valid()
      ensures r.Some? ==> r.value.id.Some? && r.value.subscriptionId == Some(subscriptionId)
    {
      FindBySubscription(instances.records, subscriptionId)
    }

    /** The client filed for the instance a subscription belongs to. */
    ghost function SessionFor(subscriptionId: string): set<Client>
      reads this, controller, instances
      requires Valid()
    {
      var found := InstanceFor(subscriptionId);
      if found.None? then {} else controller.FiledUnder(controller.ScreenId(found.value))
    }

    /**
     * `createSubscription`: the provider's reply is rejected (the call throws)
     * without saving anything when the validator reports an error; otherwise it
     * is saved as a subscription of the user and returned.
     */
    method CreateSubscription(user: User, reply: ProviderSubscription) returns (o: Outcome<Subscription>)
      modifies payments
      ensures subscriptionValidator(reply).Some? ==> o == Threw && payments.subscriptions == old(payments.subscriptions)
      ensures subscriptionValidator(reply).None? ==>
        && o == Returned(Created(reply, user.id))
        && payments.subscriptions == old(payments.subscriptions)[reply.id := Created(reply, user.id)]
    {
      var error := subscriptionValidator(reply);
      if error.Some? {
        return Threw;
      }
      var saved := Created(reply, user.id);
      payments.SaveSubscription(saved);
      o := Returned(saved);
    }

    /**
     * `captureSubscription`. `now` is the clock, `nextMonth` what `addMonthDate`
     * makes of it, `providerStatus` the status the provider reports. A refusal
     * (`CaptureRefusal`) changes nothing. Otherwise the instance's end of
     * service moves to `nextMonth`, its status becomes `initial`, the
     * subscription becomes ACTIVE and the session is started; the envelope
     * carries no status code. Once captured, the subscription is ACTIVE, so a
     * second capture is refused with 201 and changes nothing.
     */
    method CaptureSubscription(subscriptionId: string, now: int, nextMonth: int, providerStatus: string,
                               clock: Clock, ready: Probe) returns (e: Envelope)
      requires Valid() && |clock| > 0
      modifies instances, payments, controller, SessionFor(subscriptionId)
      ensures Valid()
      ensures var refusal := CaptureRefusal(old(payments.subscriptions), old(instances.records), subscriptionId, providerStatus);
        && (refusal.Some? ==>
              && e == refusal.value
              && unchanged(instances) && unchanged(payments) && unchanged(controller)
              && unchanged(controller.screens.Values))
        && (refusal.None? ==> e == Envelope(None, None, Text("The instance is initialized successfully")))
      ensures CaptureRefusal(old(payments.subscriptions), old(instances.records), subscriptionId, providerStatus).None? ==>
        && payments.subscriptions == WithStatus(old(payments.subscriptions), subscriptionId, Active)
        && payments.subscriptions[subscriptionId].status == Active
      ensures CaptureRefusal(old(payments.subscriptions), old(instances.records), subscriptionId, providerStatus).None? ==>
        var instance := old(InstanceFor(subscriptionId)).value;
        var extended := AfterWrite(old(instances.records), instance.id.value, EndServiceIs(Some(nextMonth)));
        if old(controller.Proceeds(instance)) then
          var key := controller.ScreenId(instance).value;
          && instances.records == StatusUpdated(extended, instance.id.value, Initial, LastReading(clock))
          && key in controller.screens && fresh(controller.screens[key])
          && controller.screens == old(controller.screens)[key := controller.screens[key]]
          && controller.screens[key].instance == instance && controller.screens[key].initialized
          && controller.GetStatus(key) == StatusOf(ready)
          && (key in old(controller.screens) ==> old(controller.screens)[key].destroyed)
        else
          && instances.records == StatusUpdated(extended, instance.id.value, Initial, now)
          && controller.screens == old(controller.screens)
          && unchanged(controller.screens.Values)
    {
      var refusal := CaptureRefusal(payments.subscriptions, instances.records, subscriptionId, providerStatus);
      if refusal.Some? {
        return refusal.value;
      }
      var instance := FindBySubscription(instances.records, subscriptionId).value;
      var id := instance.id.value;
      ghost var extended := AfterWrite(instances.records, id, EndServiceIs(Some(nextMonth)));
      Activate(id, subscriptionId, now, nextMonth);
      ghost var activated := instances.records;
      assert activated == StatusUpdated(extended, id, Initial, now);
      assert instance == old(InstanceFor(subscriptionId)).value;
      assert controller.screens == old(controller.screens);
      controller.Start(instance, ByPayment, clock, ready);
      if old(controller.Proceeds(instance)) {
        assert instances.records == StatusUpdated(activated, id, Initial, LastReading(clock));
        InitialTwiceKeepsLastStamp(extended, id, now, LastReading(clock));
        assert instances.records == StatusUpdated(extended, id, Initial, LastReading(clock));
      }
      e := Envelope(None, None, Text("The instance is initialized successfully"));
    }

    /**
     * The writes of a capture before the session starts: end of service at
     * `nextMonth`, status `initial` stamped at `now`, subscription ACTIVE.
     */
    method Activate(id: Id, subscriptionId: string, now: int, nextMonth: int)
      requires Valid()
      modifies instances, payments
      ensures Valid()
      ensures instances.records ==
        StatusUpdated(AfterWrite(old(instances.records), id, EndServiceIs(Some(nextMonth))), id, Initial, now)
      ensures payments.subscriptions == WithStatus(old(payments.subscriptions), subscriptionId, Active)
    {
      instances.UpdateEndService(id, Some(nextMonth));
      instances.UpdateStatus(id, Initial, now);
      payments.UpdateStatus(subscriptionId, Active);
    }

    /**
     * `cancelSubscription`. `reply` is the provider's answer to the new
     * subscription request for the owner. The instance the subscription
     * belongs to is suspended and its session destroyed, even when the owner
     * is missing; the stores then change as `CancelledRecords` and
     * `CancelledPayments` say, and the call rejects as `CancelThrows` says.
     */
    method CancelSubscription(subscriptionId: string, reply: ProviderSubscription) returns (o: Outcome<()>)
      requires Valid()
      modifies instances, payments, SessionFor(subscriptionId)
      ensures Valid()
      ensures instances.records ==
        CancelledRecords(old(instances.records), instances.users.users, subscriptionId, reply, subscriptionValidator(reply))
      ensures payments.subscriptions ==
        CancelledPayments(old(payments.subscriptions), old(instances.records), instances.users.users,
                          subscriptionId, reply, subscriptionValidator(reply))
      ensures o.Threw? ==
        CancelThrows(old(instances.records), instances.users.users, subscriptionId, reply, subscriptionValidator(reply))
      ensures controller.screens == old(controller.screens)
      ensures old(InstanceFor(subscriptionId)).Some? ==>
        var key := controller.ScreenId(old(InstanceFor(subscriptionId)).value);
        key.Some? && key.value in controller.screens ==>
          controller.screens[key.value].destroyed && controller.GetStatus(key.value) == None
      ensures old(InstanceFor(subscriptionId)).None? ==> unchanged(controller.screens.Values)
    {
      var found := FindBySubscription(instances.records, subscriptionId);
      if found.None? {
        return Returned(());
      }
      o := CancelFound(found.value, subscriptionId, reply);
    }

    /** A cancellation whose subscription belongs to `instance`. */
    method CancelFound(instance: Instance, subscriptionId: string, reply: ProviderSubscription) returns (o: Outcome<()>)
      requires Valid() && FindBySubscription(instances.records, subscriptionId) == Some(instance)
      modifies instances, payments, controller.FiledUnder(controller.ScreenId(instance))
      ensures Valid()
      ensures instances.records ==
        CancelledRecords(old(instances.records), instances.users.users, subscriptionId, reply, subscriptionValidator(reply))
      ensures payments.subscriptions ==
        CancelledPayments(old(payments.subscriptions), old(instances.records), instances.users.users,
                          subscriptionId, reply, subscriptionValidator(reply))
      ensures o.Threw? ==
        CancelThrows(old(instances.records), instances.users.users, subscriptionId, reply, subscriptionValidator(reply))
      ensures controller.screens == old(controller.screens)
      ensures var key := controller.ScreenId(instance);
        key.Some? && key.value in controller.screens ==>
          controller.screens[key.value].destroyed && controller.GetStatus(key.value) == None
    {
      ghost var m := instances.records;
      ghost var p := payments.subscriptions;
      Suspend(instance);
      o := RebillOwner(m, p, instance, subscriptionId, reply);
    }

    /**
     * The rest of a cancellation once the instance is suspended: the owner is
     * looked up and, when there is one, billed again.
     */
    method RebillOwner(ghost m: Records, ghost p: Subscriptions, instance: Instance,
                       subscriptionId: string, reply: ProviderSubscription) returns (o: Outcome<()>)
      requires Valid() && WellKeyed(m) && FindBySubscription(m, subscriptionId) == Some(instance)
      requires instances.records == StatusUpdated(m, instance.id.value, Unpayment, 0)
      requires payments.subscriptions == p
      modifies instances, payments
      ensures Valid() && unchanged(controller) && unchanged(controller.screens.Values)
      ensures instances.records ==
        CancelledRecords(m, instances.users.users, subscriptionId, reply, subscriptionValidator(reply))
      ensures payments.subscriptions ==
        CancelledPayments(p, m, instances.users.users, subscriptionId, reply, subscriptionValidator(reply))
      ensures o.Threw? == CancelThrows(m, instances.users.users, subscriptionId, reply, subscriptionValidator(reply))
    {
      var user := FindUser(instances.users.users, instance.userId);
      ghost var users := instances.users.users;
      ghost var replyError := subscriptionValidator(reply);
      CancelOwner(m, users, subscriptionId, reply, replyError);
      o := Resubscribe(instance.id.value, user, reply);
      if Relinks(m, users, subscriptionId, reply, replyError) {
        CancelRelinkStores(m, p, users, subscriptionId, reply, replyError);
      } else if user.Some? && replyError.None? {
        CancelWithoutLinkStores(m, p, users, subscriptionId, reply, replyError);
      } else {
        CancelWithoutOwnerStores(m, p, users, subscriptionId, reply, replyError);
      }
    }

    /** The first steps of a cancellation: the instance becomes `unpayment` and its session is destroyed. */
    method Suspend(instance: Instance)
      requires Valid() && instance.id.Some?
      modifies instances, controller.FiledUnder(controller.ScreenId(instance))
      ensures Valid()
      ensures instances.records == StatusUpdated(old(instances.records), instance.id.value, Unpayment, 0)
      ensures controller.screens == old(controller.screens)
      ensures var key := controller.ScreenId(instance);
        key.Some? && key.value in controller.screens ==>
          controller.screens[key.value].destroyed && controller.GetStatus(key.value) == None
    {
      instances.UpdateStatus(instance.id.value, Unpayment, 0);
      controller.Destroy(controller.ScreenId(instance));
    }

    /**
     * The rest of a cancellation once the owner is looked up: without an owner
     * nothing more happens; a reply that fails validation or has no link
     * rejects; otherwise the new subscription is saved and relinked.
     */
    method Resubscribe(id: Id, owner: Option<User>, reply: ProviderSubscription) returns (o: Outcome<()>)
      requires Valid() && id in instances.records
      modifies instances, payments
      ensures Valid() && unchanged(controller) && unchanged(controller.screens.Values)
      ensures o.Threw? == (owner.Some? && (subscriptionValidator(reply).Some? || reply.links == []))
      ensures owner.Some? && subscriptionValidator(reply).None? && reply.links != [] ==>
        && instances.records == Relinked(old(instances.records), id, reply.id, reply.links[0])
        && payments.subscriptions ==
             WithInstance(old(payments.subscriptions)[reply.id := Created(reply, owner.value.id)], reply.id, id)
      ensures owner.Some? && subscriptionValidator(reply).None? && reply.links == [] ==>
        && instances.records == old(instances.records)
        && payments.subscriptions == old(payments.subscriptions)[reply.id := Created(reply, owner.value.id)]
      ensures owner.None? || subscriptionValidator(reply).Some? ==>
        instances.records == old(instances.records) && payments.subscriptions == old(payments.subscriptions)
    {
      if owner.None? {
        return Returned(());
      }
      var created := CreateSubscription(owner.value, reply);
      if created.Threw? {
        return Threw;
      }
      if reply.links == [] {
        return Threw;
      }
      Relink(id, reply.id, reply.links[0]);
      o := Returned(());
    }

    /**
     * The tail of a cancellation that found an owner and a link: the instance
     * gets the new subscription id, no end of service and the link, and the
     * new subscription gets the instance.
     */
    method Relink(id: Id, subscriptionId: string, link: string)
      requires Valid() && id in instances.records
      modifies instances, payments
      ensures Valid()
      ensures instances.records == Relinked(old(instances.records), id, subscriptionId, link)
      ensures payments.subscriptions == WithInstance(old(payments.subscriptions), subscriptionId, id)
    {
      instances.UpdateSubscriptionId(id, subscriptionId);
      instances.UpdateEndService(id, None);
      instances.UpdatePaymentLink(id, link);
      payments.UpdateInstanceId(subscriptionId, id);
    }

    /** `eventsControls`: only a cancellation event does anything; the answer is always 'ok'. */
    method EventsControls(event: Event, reply: ProviderSubscription) returns (o: Outcome<Envelope>)
      requires Valid()
      modifies instances, payments, SessionFor(event.resourceId)
      ensures Valid()
      ensures o.Returned? ==> o.value == Envelope(None, None, Text("ok"))
      ensures !IsCancellation(event) ==>
        && o.Returned? && unchanged(instances) && unchanged(payments)
        && unchanged(controller.screens.Values)
      ensures IsCancellation(event) ==>
        && instances.records == CancelledRecords(old(instances.records), instances.users.users,
                                                 event.resourceId, reply, subscriptionValidator(reply))
        && payments.subscriptions == CancelledPayments(old(payments.subscriptions), old(instances.records),
                                                       instances.users.users, event.resourceId, reply,
                                                       subscriptionValidator(reply))
        && o.Threw? == CancelThrows(old(instances.records), instances.users.users,
                                    event.resourceId, reply, subscriptionValidator(reply))
      ensures controller.screens == old(controller.screens)
      ensures IsCancellation(event) && old(InstanceFor(event.resourceId)).Some? ==>
        var key := controller.ScreenId(old(InstanceFor(event.resourceId)).value);
        key.Some? && key.value in controller.screens ==>
          controller.screens[key.value].destroyed && controller.GetStatus(key.value) == None
      ensures IsCancellation(event) && old(InstanceFor(event.resourceId)).None? ==>
        unchanged(controller.screens.Values)
    {
      if IsCancellation(event) {
        var cancelled := CancelSubscription(event.resourceId, reply);
        if cancelled.Threw? {
          return Threw;
        }
      }
      o := Returned(Envelope(None, None, Text("ok")));
    }
  }
}
