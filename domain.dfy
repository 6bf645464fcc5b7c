/**
 * Values shared by the instance-session orchestrator: the persisted instance
 * record, its lifecycle status, the runtime state a WhatsApp client reports,
 * and the `{statusCode, error?, message?}` envelope the use-case layer returns.
 */
module Domain {

  datatype Option<+T> = None | Some(value: T)

  /** An operation either returns a value or its promise rejects. */
  datatype Outcome<+T> = Returned(value: T) | Threw

  /** A Mongo `_id` in its text form. */
  type Id = string

  /** Persisted lifecycle status of an instance. */
  datatype Status = Pending | Initial | Authenticated | Unpayment

  /** The states whatsapp-web.js reports through `getState()` (its `WAState` enum). */
  datatype WAState =
    | Conflict | Connected | DeprecatedVersion | Opening | Pairing | ProxyBlock
    | SmbTosBlock | Timeout | TosBlock | Unlaunched | Unpaired | UnpairedIdle

  /** Why a session start was requested. */
  datatype StartReason = ByStart | ByPayment | ByWindowClose | ByError

  /**
   * An instance document. Every field the application treats as optional is
   * an `Option`; `None` stands for both `undefined` and `null`.
   * Dates are milliseconds since the epoch.
   */
  datatype Instance = Instance(
    id: Option<Id>,
    token: Option<string>,
    userId: Option<string>,
    name: Option<string>,
    webhookUrl: Option<string>,
    qr: Option<string>,
    status: Option<Status>,
    initialDate: Option<int>,
    createdIn: Option<int>,
    endService: Option<int>,
    subscriptionId: Option<string>,
    paymentLink: Option<string>)

  /** The names of the fields of an instance, for "only these fields changed". */
  datatype Field =
    | IdField | TokenField | UserIdField | NameField | WebhookUrlField | QrField
    | StatusField | InitialDateField | CreatedInField | EndServiceField
    | SubscriptionIdField | PaymentLinkField

  /** `a` and `b` agree on every field outside `fs`. */
  predicate SameOutside(a: Instance, b: Instance, fs: set<Field>)
  {
    && (IdField !in fs ==> a.id == b.id)
    && (TokenField !in fs ==> a.token == b.token)
    && (UserIdField !in fs ==> a.userId == b.userId)
    && (NameField !in fs ==> a.name == b.name)
    && (WebhookUrlField !in fs ==> a.webhookUrl == b.webhookUrl)
    && (QrField !in fs ==> a.qr == b.qr)
    && (StatusField !in fs ==> a.status == b.status)
    && (InitialDateField !in fs ==> a.initialDate == b.initialDate)
    && (CreatedInField !in fs ==> a.createdIn == b.createdIn)
    && (EndServiceField !in fs ==> a.endService == b.endService)
    && (SubscriptionIdField !in fs ==> a.subscriptionId == b.subscriptionId)
    && (PaymentLinkField !in fs ==> a.paymentLink == b.paymentLink)
  }

  /** Changes confined to `f1` and then to `f2` are confined to both together. */
  lemma SameOutsideGrows(a: Instance, b: Instance, c: Instance, f1: set<Field>, f2: set<Field>)
    requires SameOutside(a, b, f1) && SameOutside(b, c, f2)
    ensures SameOutside(a, c, f1 + f2)
  {
  }

  /** The application's `isEmptyNullOrUndefined` on a text value. */
  predicate IsBlank(s: Option<string>)
  {
    s.None? || s.value == ""
  }

  /** What an envelope carries in its `message` field. */
  datatype Payload =
    | NoMessage
    | Text(text: string)
    | SavedInstance(instance: Instance, info: string)
    | OneInstance(found: Instance)
    | Instances(items: seq<Instance>)
    | QrAndStatus(qr: Option<string>, status: Option<Status>)
    | RealStatus(state: Option<WAState>)

  /** The `{statusCode, error?, message?}` result handed to the HTTP layer. */
  datatype Envelope = Envelope(statusCode: Option<int>, error: Option<string>, message: Payload)

  function Failure(code: int, error: string, message: Payload): Envelope
  {
    Envelope(Some(code), Some(error), message)
  }

  function Success(code: int, message: Payload): Envelope
  {
    Envelope(Some(code), None, message)
  }
}
