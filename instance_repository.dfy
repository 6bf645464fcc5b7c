/**
 * The instance store: Mongo's `instances` collection seen as a map from `_id`
 * to document, the queries the orchestrator runs over it, and a class whose
 * methods write it in place the way `InstanceRepository` does.
 */
module InstanceRepository {
  import opened Domain
  import opened Ordering
  import opened UserRepository

  type Records = map<Id, Instance>

  /** Every document is stored under its own `_id`. */
  ghost predicate WellKeyed(m: Records)
  {
    forall id :: id in m ==> m[id].id == Some(id)
  }

  /** `mongoose.Types.ObjectId.isValid`, on the 24-hex-digit text form of an ObjectId. */
  predicate IsObjectId(id: string)
  {
    |id| == 24 && forall i :: 0 <= i < |id| ==> id[i] in "0123456789abcdefABCDEF"
  }

  /** One hex digit as an ObjectId prints it: letters in lower case. */
  function LowerHex(c: char): char
  {
    if 'A' <= c <= 'F' then (c as int - 'A' as int + 'a' as int) as char else c
  }

  /**
   * The `_id` a query casts a caller's ObjectId text to, as the stored
   * document's `_id` prints: the same digits, letters in lower case.
   */
  function Cast(id: string): (k: Id)
    ensures |k| == |id|
    ensures forall i :: 0 <= i < |id| ==> k[i] == LowerHex(id[i])
  {
    if id == [] then [] else [LowerHex(id[0])] + Cast(id[1..])
  }

  /** A hex digit casts to a lower-case hex digit, which casts to itself. */
  lemma LowerHexIsCanonical(c: char)
    requires c in "0123456789abcdefABCDEF"
    ensures LowerHex(c) in "0123456789abcdef" && LowerHex(LowerHex(c)) == LowerHex(c)
  {
    if 'A' <= c <= 'F' {
      assert LowerHex(c) == "abcdef"[c as int - 'A' as int];
    } else {
      assert !('A' <= c <= 'F');
    }
  }

  /** The cast of an ObjectId's text is lower-case ObjectId text, and casting it again changes nothing. */
  lemma CastIsCanonical(id: string)
    requires IsObjectId(id)
    ensures IsObjectId(Cast(id))
    ensures forall i :: 0 <= i < |id| ==> Cast(id)[i] in "0123456789abcdef"
    ensures Cast(Cast(id)) == Cast(id)
  {
    var k := Cast(id);
    forall i | 0 <= i < |id|
      ensures k[i] in "0123456789abcdef" && LowerHex(k[i]) == k[i]
    {
      LowerHexIsCanonical(id[i]);
    }
    assert forall i :: 0 <= i < |k| ==> k[i] in "0123456789abcdefABCDEF";
  }

  // ---------------------------------------------------------------------------
  // Single-field writes: `updateOne({ _id }, { [key]: value })`
  // ---------------------------------------------------------------------------

  /** The one-field updates the application issues, each with its value. */
  datatype FieldWrite =
    | QrIs(qr: string)
    | StatusIs(status: Status)
    | InitialDateIs(at: int)
    | WebhookUrlIs(url: string)
    | NameIs(name: string)
    | EndServiceIs(end: Option<int>)
    | SubscriptionIdIs(subscriptionId: string)
    | PaymentLinkIs(link: string)

  function FieldOf(w: FieldWrite): Field
  {
    match w
    case QrIs(_) => QrField
    case StatusIs(_) => StatusField
    case InitialDateIs(_) => InitialDateField
    case WebhookUrlIs(_) => WebhookUrlField
    case NameIs(_) => NameField
    case EndServiceIs(_) => EndServiceField
    case SubscriptionIdIs(_) => SubscriptionIdField
    case PaymentLinkIs(_) => PaymentLinkField
  }

  /** The field `w` names holds the value `w` carries. */
  predicate Holds(r: Instance, w: FieldWrite)
  {
    match w
    case QrIs(q) => r.qr == Some(q)
    case StatusIs(s) => r.status == Some(s)
    case InitialDateIs(t) => r.initialDate == Some(t)
    case WebhookUrlIs(u) => r.webhookUrl == Some(u)
    case NameIs(n) => r.name == Some(n)
    case EndServiceIs(e) => r.endService == e
    case SubscriptionIdIs(s) => r.subscriptionId == Some(s)
    case PaymentLinkIs(l) => r.paymentLink == Some(l)
  }

  function Written(r: Instance, w: FieldWrite): (r': Instance)
  {
    match w
    case QrIs(q) => r.(qr := Some(q))
    case StatusIs(s) => r.(status := Some(s))
    case InitialDateIs(t) => r.(initialDate := Some(t))
    case WebhookUrlIs(u) => r.(webhookUrl := Some(u))
    case NameIs(n) => r.(name := Some(n))
    case EndServiceIs(e) => r.(endService := e)
    case SubscriptionIdIs(s) => r.(subscriptionId := Some(s))
    case PaymentLinkIs(l) => r.(paymentLink := Some(l))
  }

  /** The store after `updateInstance(id, key, value)`: a missing `_id` matches nothing. */
  function AfterWrite(m: Records, id: Id, w: FieldWrite): (m': Records)
    ensures m'.Keys == m.Keys
    ensures forall other :: other in m && other != id ==> m'[other] == m[other]
    ensures id in m ==> m'[id] == Written(m[id], w)
    ensures WellKeyed(m) ==> WellKeyed(m')
  {
    if id in m then m[id := Written(m[id], w)] else m
  }

  /** A single-field write sets the field it names and changes no other field of the record. */
  lemma WriteChangesOneField(m: Records, id: Id, w: FieldWrite)
    requires id in m
    ensures Holds(AfterWrite(m, id, w)[id], w)
    ensures SameOutside(m[id], AfterWrite(m, id, w)[id], {FieldOf(w)})
  {
  }

  /** The store after `updateStatus(id, s)`; only `initial` also stamps `initialDate`. */
  function StatusUpdated(m: Records, id: Id, s: Status, now: int): (m': Records)
    ensures m'.Keys == m.Keys
    ensures forall other :: other in m && other != id ==> m'[other] == m[other]
    ensures id in m ==> m'[id].status == Some(s)
    ensures id in m ==> (m'[id].initialDate == Some(now) <== s == Initial)
    ensures id in m && s != Initial ==> m'[id].initialDate == m[id].initialDate
    ensures WellKeyed(m) ==> WellKeyed(m')
  {
    var m1 := AfterWrite(m, id, StatusIs(s));
    if s == Initial then AfterWrite(m1, id, InitialDateIs(now)) else m1
  }

  /** `updateStatus` changes no field of the instance but the status and its stamp. */
  lemma StatusUpdateKeepsOtherFields(m: Records, id: Id, s: Status, now: int)
    requires id in m
    ensures SameOutside(m[id], StatusUpdated(m, id, s, now)[id], {StatusField, InitialDateField})
  {
    var m1 := AfterWrite(m, id, StatusIs(s));
    assert m1[id] == m[id].(status := Some(s));
  }

  /** Setting status `initial` twice leaves the store as the second write alone would. */
  lemma InitialTwiceKeepsLastStamp(m: Records, id: Id, t1: int, t2: int)
    ensures StatusUpdated(StatusUpdated(m, id, Initial, t1), id, Initial, t2)
         == StatusUpdated(m, id, Initial, t2)
  {
    if id in m {
      var once := StatusUpdated(m, id, Initial, t1);
      StatusInitialStamps(m, id, t1);
      StatusInitialStamps(once, id, t2);
      StatusInitialStamps(m, id, t2);
      var last := m[id].(status := Some(Initial), initialDate := Some(t2));
      assert once[id].(status := Some(Initial), initialDate := Some(t2)) == last;
      assert once[id := last] == m[id := last];
    }
  }

  /** Status `initial` on a stored record: both fields are set in place. */
  lemma StatusInitialStamps(m: Records, id: Id, t: int)
    requires id in m
    ensures StatusUpdated(m, id, Initial, t) == m[id := m[id].(status := Some(Initial), initialDate := Some(t))]
  {
    var m1 := AfterWrite(m, id, StatusIs(Initial));
    assert m1 == m[id := m[id].(status := Some(Initial))];
  }

  // ---------------------------------------------------------------------------
  // update(instance): overwrite a named document or insert a new one
  // ---------------------------------------------------------------------------

  /** `r` defines field `f`. */
  predicate Defined(r: Instance, f: Field)
  {
    match f
    case IdField => r.id.Some?
    case TokenField => r.token.Some?
    case UserIdField => r.userId.Some?
    case NameField => r.name.Some?
    case WebhookUrlField => r.webhookUrl.Some?
    case QrField => r.qr.Some?
    case StatusField => r.status.Some?
    case InitialDateField => r.initialDate.Some?
    case CreatedInField => r.createdIn.Some?
    case EndServiceField => r.endService.Some?
    case SubscriptionIdField => r.subscriptionId.Some?
    case PaymentLinkField => r.paymentLink.Some?
  }

  /** `a` and `b` hold the same value in field `f`. */
  predicate Agrees(a: Instance, b: Instance, f: Field)
  {
    match f
    case IdField => a.id == b.id
    case TokenField => a.token == b.token
    case UserIdField => a.userId == b.userId
    case NameField => a.name == b.name
    case WebhookUrlField => a.webhookUrl == b.webhookUrl
    case QrField => a.qr == b.qr
    case StatusField => a.status == b.status
    case InitialDateField => a.initialDate == b.initialDate
    case CreatedInField => a.createdIn == b.createdIn
    case EndServiceField => a.endService == b.endService
    case SubscriptionIdField => a.subscriptionId == b.subscriptionId
    case PaymentLinkField => a.paymentLink == b.paymentLink
  }

  function Pick<T>(patch: Option<T>, stored: Option<T>): Option<T>
  {
    if patch.Some? then patch else stored
  }

  /** `updateOne({ _id }, instance)`: Mongoose drops undefined keys from an update. */
  function Overlay(stored: Instance, patch: Instance): Instance
  {
    Instance(
      Pick(patch.id, stored.id), Pick(patch.token, stored.token), Pick(patch.userId, stored.userId),
      Pick(patch.name, stored.name), Pick(patch.webhookUrl, stored.webhookUrl), Pick(patch.qr, stored.qr),
      Pick(patch.status, stored.status), Pick(patch.initialDate, stored.initialDate),
      Pick(patch.createdIn, stored.createdIn), Pick(patch.endService, stored.endService),
      Pick(patch.subscriptionId, stored.subscriptionId), Pick(patch.paymentLink, stored.paymentLink))
  }

  /** Every field the caller defines replaces the stored one; every other field is kept. */
  lemma OverlayReplacesDefinedFields(stored: Instance, patch: Instance)
    ensures forall f :: Defined(patch, f) ==> Agrees(Overlay(stored, patch), patch, f)
    ensures forall f :: !Defined(patch, f) ==> Agrees(Overlay(stored, patch), stored, f)
  {
    var r := Overlay(stored, patch);
    forall f
      ensures Defined(patch, f) ==> Agrees(r, patch, f)
      ensures !Defined(patch, f) ==> Agrees(r, stored, f)
    {
      match f
      case IdField =>
      case TokenField =>
      case UserIdField =>
      case NameField =>
      case WebhookUrlField =>
      case QrField =>
      case StatusField =>
      case InitialDateField =>
      case CreatedInField =>
      case EndServiceField =>
      case SubscriptionIdField =>
      case PaymentLinkField =>
    }
  }

  /** `update` treats a defined, non-empty `_id` as naming an existing document. */
  predicate NamesDocument(instance: Instance)
  {
    instance.id.Some? && instance.id.value != ""
  }

  /**
   * A new document: fresh `_id` and token; `date.setMonth` has already moved
   * `date` a month ahead when it is read, so all three dates are that later time.
   */
  function Inserted(instance: Instance, monthLater: int, freshId: Id, freshToken: string): (r: Instance)
    ensures r.id == Some(freshId) && r.token == Some(freshToken)
    ensures r.createdIn == r.endService == r.initialDate == Some(monthLater)
    ensures SameOutside(instance, r, {IdField, TokenField, CreatedInField, EndServiceField, InitialDateField})
  {
    instance.(id := Some(freshId), token := Some(freshToken),
              createdIn := Some(monthLater), endService := Some(monthLater), initialDate := Some(monthLater))
  }

  /** What `update` returns. */
  function UpdateResult(instance: Instance, monthLater: int, freshId: Id, freshToken: string): (r: Instance)
    ensures NamesDocument(instance) ==> r == instance
    ensures !NamesDocument(instance) ==> r.id == Some(freshId) && r.token == Some(freshToken)
  {
    if NamesDocument(instance) then instance else Inserted(instance, monthLater, freshId, freshToken)
  }

  /** The store after `update`. */
  function Updated(m: Records, instance: Instance, monthLater: int, freshId: Id, freshToken: string): (m': Records)
    requires freshId !in m
    ensures NamesDocument(instance) ==> m'.Keys == m.Keys
    ensures NamesDocument(instance) && instance.id.value in m ==>
      m'[instance.id.value] == Overlay(m[instance.id.value], instance)
    ensures !NamesDocument(instance) ==>
      m'.Keys == m.Keys + {freshId} && m'[freshId] == UpdateResult(instance, monthLater, freshId, freshToken)
    ensures forall k :: k in m && (!NamesDocument(instance) || k != instance.id.value) ==> m'[k] == m[k]
    ensures WellKeyed(m) ==> WellKeyed(m')
  {
    if NamesDocument(instance) then
      var id := instance.id.value;
      if id in m then m[id := Overlay(m[id], instance)] else m
    else
      m[freshId := Inserted(instance, monthLater, freshId, freshToken)]
  }

  // ---------------------------------------------------------------------------
  // Queries
  // ---------------------------------------------------------------------------

  /** The projection `{ userId: 0 }` the lookups apply. */
  function WithoutOwner(r: Instance): Instance
  {
    r.(userId := None)
  }

  /**
   * `findByIdAndToken`: text that is not an ObjectId finds nothing; an ObjectId
   * finds the document whose `_id` it casts to, in either case of its letters.
   */
  function FindByIdAndToken(m: Records, id: Option<string>, token: string): (r: Option<Instance>)
    requires WellKeyed(m)
    ensures r.Some? <==>
      id.Some? && IsObjectId(id.value) && Cast(id.value) in m && m[Cast(id.value)].token == Some(token)
    ensures r.Some? ==> r.value.id == Some(Cast(id.value)) && r.value.token == Some(token) && r.value.userId == None
    ensures r.Some? ==> SameOutside(m[Cast(id.value)], r.value, {UserIdField})
  {
    if id.None? || !IsObjectId(id.value) then None
    else
      var key := Cast(id.value);
      if key in m && m[key].token == Some(token) then Some(WithoutOwner(m[key])) else None
  }

  /** `findByIdAndUserId`: administrators match on `_id` alone, everyone else also on the owner. */
  function FindByIdAndUserId(m: Records, users: map<string, User>, id: string, userId: string): (r: Option<Instance>)
    requires WellKeyed(m)
    ensures r.Some? <==>
      IsObjectId(id) && Cast(id) in m && (IsAdmin(users, userId) || m[Cast(id)].userId == Some(userId))
    ensures r.Some? ==> r.value.id == Some(Cast(id)) && r.value.userId == None
    ensures r.Some? ==> SameOutside(m[Cast(id)], r.value, {UserIdField})
  {
    if !IsObjectId(id) then None
    else
      var key := Cast(id);
      if key in m && (IsAdmin(users, userId) || m[key].userId == Some(userId)) then Some(WithoutOwner(m[key]))
      else None
  }

  /** Two spellings of one ObjectId find the same instance. */
  lemma LookupIgnoresLetterCase(m: Records, users: map<string, User>, a: string, b: string, token: string, userId: string)
    requires WellKeyed(m) && IsObjectId(a) && IsObjectId(b) && Cast(a) == Cast(b)
    ensures FindByIdAndToken(m, Some(a), token) == FindByIdAndToken(m, Some(b), token)
    ensures FindByIdAndUserId(m, users, a, userId) == FindByIdAndUserId(m, users, b, userId)
  {
  }

  /**
   * The store after `delete`, for an ObjectId (other text makes the query
   * throw): `deleteOne({ _id, userId })` has no administrator override.
   */
  function Deleted(m: Records, id: string, userId: string): (m': Records)
    requires IsObjectId(id)
    ensures Cast(id) in m && m[Cast(id)].userId == Some(userId) ==> m'.Keys == m.Keys - {Cast(id)}
    ensures !(Cast(id) in m && m[Cast(id)].userId == Some(userId)) ==> m' == m
    ensures forall k :: k in m' ==> k in m && m'[k] == m[k]
    ensures WellKeyed(m) ==> WellKeyed(m')
  {
    var key := Cast(id);
    if key in m && m[key].userId == Some(userId) then m - {key} else m
  }

  /** Once its owner deletes an instance, no user, administrator or not, finds it by id. */
  lemma DeletedInstanceIsNotFound(m: Records, users: map<string, User>, id: string, owner: string, anyone: string)
    requires WellKeyed(m) && IsObjectId(id)
    requires Cast(id) in m && m[Cast(id)].userId == Some(owner)
    ensures FindByIdAndUserId(Deleted(m, id, owner), users, id, anyone) == None
  {
  }

  /** The ids of the documents the query selects. */
  function Matching(m: Records, query: Instance -> bool): set<Id>
  {
    set id | id in m && query(m[id])
  }

  /** The documents stored under `ids`, in that order. */
  function Documents(m: Records, ids: seq<Id>): (r: seq<Instance>)
    requires forall i :: 0 <= i < |ids| ==> ids[i] in m
    ensures |r| == |ids| && forall i :: 0 <= i < |r| ==> r[i] == m[ids[i]]
  {
    if ids == [] then [] else [m[ids[0]]] + Documents(m, ids[1..])
  }

  /** Under distinct keys, a document is listed exactly when its key is. */
  lemma DocumentsListKeys(m: Records, ids: seq<Id>, id: Id)
    requires WellKeyed(m) && id in m
    requires forall i :: 0 <= i < |ids| ==> ids[i] in m
    ensures m[id] in Documents(m, ids) <==> id in ids
  {
    var r := Documents(m, ids);
    if m[id] in r {
      var i :| 0 <= i < |r| && r[i] == m[id];
      assert m[ids[i]].id == Some(ids[i]);
    }
  }

  /**
   * `get`: the selected documents sorted by `_id` descending, `skip` of them
   * dropped, then at most `limit` (Mongo reads a limit of 0 as no limit).
   */
  function Listed(m: Records, query: Instance -> bool, skip: nat, limit: nat): (r: seq<Instance>)
    requires WellKeyed(m)
    ensures forall i :: 0 <= i < |r| ==>
      r[i].id.Some? && r[i].id.value in m && m[r[i].id.value] == r[i] && query(r[i])
    ensures forall i, j :: 0 <= i < j < |r| ==> Below(r[j].id.value, r[i].id.value)
    ensures forall id :: id in m && query(m[id]) ==>
      (m[id] in r <==>
        (skip <= Rank(Matching(m, query), id)
         && (limit == 0 || Rank(Matching(m, query), id) < skip + limit)))
    ensures limit != 0 ==> |r| <= limit
  {
    var s := Matching(m, query);
    var ids := Page(s, skip, limit);
    var r := Documents(m, ids);
    forall id | id in m && query(m[id])
      ensures m[id] in r <==> id in ids
    {
      DocumentsListKeys(m, ids, id);
    }
    r
  }

  /**
   * `findOne({ subscriptionId })`. Without a sort Mongo promises no order, so
   * which of several matches comes back is unspecified; the model fixes that
   * choice as the match with the least `_id`.
   */
  function FindBySubscription(m: Records, subscriptionId: string): (r: Option<Instance>)
    requires WellKeyed(m)
    ensures r.None? <==> forall id :: id in m ==> m[id].subscriptionId != Some(subscriptionId)
    ensures r.Some? ==> r.value.id.Some? && r.value.id.value in m && m[r.value.id.value] == r.value
    ensures r.Some? ==> r.value.subscriptionId == Some(subscriptionId)
  {
    var s := set id | id in m && m[id].subscriptionId == Some(subscriptionId);
    if s == {} then
      assert forall id :: id in m ==> m[id].subscriptionId != Some(subscriptionId) by {
        forall id | id in m
          ensures m[id].subscriptionId != Some(subscriptionId)
        {
          assert id !in s;
        }
      }
      None
    else
      Some(m[Least(s)])
  }

  /** Of several instances on one subscription, the model's `findOne` returns the one with the least id. */
  lemma FindBySubscriptionTakesLeast(m: Records, subscriptionId: string)
    requires WellKeyed(m) && FindBySubscription(m, subscriptionId).Some?
    ensures var found := FindBySubscription(m, subscriptionId).value.id.value;
      forall id :: id in m && m[id].subscriptionId == Some(subscriptionId) && id != found ==> Below(found, id)
  {
    var s := set id | id in m && m[id].subscriptionId == Some(subscriptionId);
    assert FindBySubscription(m, subscriptionId) == Some(m[Least(s)]);
  }

  // ---------------------------------------------------------------------------
  // The repository object
  // ---------------------------------------------------------------------------

  class InstanceStore {
    var records: Records
    const users: UserStore

    ghost predicate Valid()
      reads this
    {
      WellKeyed(records)
    }

    constructor (users: UserStore)
      ensures Valid() && records == map[] && this.users == users
    {
      records := map[];
      this.users := users;
    }

    /**
     * `update`: overwrite the document the caller names, or insert a new one.
     * `freshId` and `freshToken` are what ObjectId and `randomUUID` generate;
     * `monthLater` is the clock advanced by one calendar month.
     */
    method Update(instance: Instance, monthLater: int, freshId: Id, freshToken: string) returns (saved: Instance)
      requires Valid() && freshId !in records
      modifies this
      ensures Valid()
      ensures records == Updated(old(records), instance, monthLater, freshId, freshToken)
      ensures saved == UpdateResult(instance, monthLater, freshId, freshToken)
    {
      if instance.id.Some? && instance.id.value != "" {
        var id := instance.id.value;
        if id in records {
          records := records[id := Overlay(records[id], instance)];
        }
        return instance;
      }
      saved := instance.(id := Some(freshId), token := Some(freshToken),
                         createdIn := Some(monthLater), endService := Some(monthLater),
                         initialDate := Some(monthLater));
      records := records[freshId := saved];
    }

    /** `updateInstance(id, key, value)`. */
    method UpdateInstance(id: Id, w: FieldWrite)
      requires Valid()
      modifies this
      ensures Valid()
      ensures records == AfterWrite(old(records), id, w)
    {
      if id in records {
        records := records[id := Written(records[id], w)];
      }
    }

    method UpdateQr(id: Id, qr: string)
      requires Valid()
      modifies this
      ensures Valid()
      ensures records == AfterWrite(old(records), id, QrIs(qr))
    {
      UpdateInstance(id, QrIs(qr));
    }

    /** `updateStatus`; `now` is the clock read by `new Date()` when the value is `initial`. */
    method UpdateStatus(id: Id, s: Status, now: int)
      requires Valid()
      modifies this
      ensures Valid()
      ensures records == StatusUpdated(old(records), id, s, now)
    {
      UpdateInstance(id, StatusIs(s));
      if s == Initial {
        UpdateInstance(id, InitialDateIs(now));
      }
    }

    /**
     * `saveWebhookUrl` with the caller's `_id`: text that is not an ObjectId
     * makes Mongoose's cast throw; an ObjectId writes the document it casts to.
     */
    method SaveWebhookUrl(id: string, url: string) returns (o: Outcome<()>)
      requires Valid()
      modifies this
      ensures Valid()
      ensures !IsObjectId(id) ==> o == Threw && records == old(records)
      ensures IsObjectId(id) ==>
        o == Returned(()) && records == AfterWrite(old(records), Cast(id), WebhookUrlIs(url))
    {
      if !IsObjectId(id) {
        return Threw;
      }
      UpdateInstance(Cast(id), WebhookUrlIs(url));
      o := Returned(());
    }

    /** `saveName` with the caller's `_id`, cast as in `SaveWebhookUrl`. */
    method SaveName(id: string, name: string) returns (o: Outcome<()>)
      requires Valid()
      modifies this
      ensures Valid()
      ensures !IsObjectId(id) ==> o == Threw && records == old(records)
      ensures IsObjectId(id) ==>
        o == Returned(()) && records == AfterWrite(old(records), Cast(id), NameIs(name))
    {
      if !IsObjectId(id) {
        return Threw;
      }
      UpdateInstance(Cast(id), NameIs(name));
      o := Returned(());
    }

    method UpdateEndService(id: Id, end: Option<int>)
      requires Valid()
      modifies this
      ensures Valid()
      ensures records == AfterWrite(old(records), id, EndServiceIs(end))
    {
      UpdateInstance(id, EndServiceIs(end));
    }

    method UpdateSubscriptionId(id: Id, subscriptionId: string)
      requires Valid()
      modifies this
      ensures Valid()
      ensures records == AfterWrite(old(records), id, SubscriptionIdIs(subscriptionId))
    {
      UpdateInstance(id, SubscriptionIdIs(subscriptionId));
    }

    method UpdatePaymentLink(id: Id, link: string)
      requires Valid()
      modifies this
      ensures Valid()
      ensures records == AfterWrite(old(records), id, PaymentLinkIs(link))
    {
      UpdateInstance(id, PaymentLinkIs(link));
    }

    /** `delete` with the caller's `_id`, cast as in `SaveWebhookUrl`. */
    method Delete(id: string, userId: string) returns (o: Outcome<()>)
      requires Valid()
      modifies this
      ensures Valid()
      ensures !IsObjectId(id) ==> o == Threw && records == old(records)
      ensures IsObjectId(id) ==> o == Returned(()) && records == Deleted(old(records), id, userId)
    {
      if !IsObjectId(id) {
        return Threw;
      }
      var key := Cast(id);
      if key in records && records[key].userId == Some(userId) {
        records := records - {key};
      }
      o := Returned(());
    }
  }
}
