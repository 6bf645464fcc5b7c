# WhatsApp instance orchestrator — a Dafny model

This project models the part of the WhatsApp gateway backend that runs its
*instances*. An instance is one WhatsApp account that a user pays for and
drives over HTTP. The orchestrator keeps two stores in step:

- the **session table**: the module-level `screens` map from a screen id to a
  live whatsapp-web.js client;
- the **instance store**: the Mongo `instances` collection, from `_id` to a
  record with `status`, `qr`, `initialDate`, `endService`, `subscriptionId`,
  `paymentLink`, `token`, `userId` and more.

Four pieces of code act on them, and each has its own module here:

| file | module | form |
|---|---|---|
| `domain.dfy` | `Domain` | shared values: the instance record, `Status`, the client's `WAState`, the `{statusCode, error?, message?}` envelope |
| `ordering.dfy` | `Ordering` | the order on `_id` text, the descending listing and its `skip`/`limit` page, the least id |
| `users.dfy` | `UserRepository` | the user lookups the orchestrator makes |
| `instance_repository.dfy` | `InstanceRepository` | the repository: pure functions over the id→record map, and the class `InstanceStore` whose methods write the map in place |
| `whatsapp.dfy` | `WhatsApp` | the session controller: class `WhatsAppController` with the `screens` map, and class `Client` for the external client |
| `instance_app.dfy` | `InstanceUseCases` | the use cases behind the instance routes (class `InstanceApp`) |
| `payment.dfy` | `Payment` | the billing bridge (class `PaymentApp`), with cancellation as functions of the stores |

### How the model is built

- **The repository.** Each write method is proved against a function of the
  old map, such as `AfterWrite`, `StatusUpdated`, `Updated` or `Deleted`.
  Properties of those functions are lemmas: a write changes exactly one
  field, status `initial` also stamps `initialDate`, and a second `initial`
  keeps only the last stamp.
- **The session controller.** `start` is `Start` → `Launch` → `Attempt` /
  `Retry`. `start` takes a `Clock`: one clock reading per attempt, at the
  moment that attempt writes status `initial`. Every attempt but the last
  has its `initialize()` rejected; each rejection destroys the key's client,
  waits 10 000 ms and starts again. The stamp that stays is the last
  reading. `SpacedStampIsLate` shows that, with the wait between attempts,
  it lies at least 10 000 ms per rejection after the first reading.
- **The external client.** The client's `getState()` answer is the field
  `Client.probe`. What it reports once `initialize()` resolves is a
  parameter, `ready`: `null` (read as OPENING), or CONNECTED when a saved
  session is restored, and so on. A destroyed client's query rejects, so
  `getStatus` gives `undefined`.
- **Ids from callers.** Mongoose casts the `_id` text a caller sends. An
  ObjectId in upper-case hex reaches the record stored under its lower-case
  text (`Cast`). Text that is not an ObjectId makes a write or delete
  reject, and makes a lookup find nothing.
- **Frames.** Every controller method may change only the client filed under
  its own key (`FiledUnder`).
- **Cancellation.** `cancelSubscription` is specified by `CancelledRecords`,
  `CancelledPayments` and `CancelThrows` over the old stores. Lemmas state
  what those mean: the instance is always suspended, a relink sets exactly
  three more fields, and no other record changes.
- **Abstract inputs.** The billing provider's replies, the clock, `getScreenId`
  (`screenIdOf`), the validators and the media-extension test are parameters
  or constant functions of the classes.

Behaviour that the code has and its comments suggest otherwise, modelled as
the code does it:

- `destroy` never removes the table entry.
- `restart` only destroys; it starts no client and writes no status.
- `getQr` restarts a silent session only while `initialDate` lies *less*
  than a minute from now (`ShouldAutoRestart`). The comment above it says
  "after one minute".
- A new record's `createdIn`, `endService` and `initialDate` are all the same
  instant, one month ahead (`Inserted`). `date.setMonth` has already moved
  `date` when the three fields read it.

## Model

| member | source | states |
|---|---|---|
| `Ordering.Page` | backend/src/mooc/routes/instance/infranstructure/Database/instanceRepository.ts:52-55 | the page is strictly descending, holds only elements of the set, holds exactly the elements whose rank r has skip ≤ r and (limit = 0 or r < skip + limit), and has at most `limit` elements when `limit` ≠ 0 |
| `Ordering.DescendingRank` | backend/src/mooc/routes/instance/infranstructure/Database/instanceRepository.ts:54 | in the descending listing, position i holds the element with exactly i elements above it |
| `Ordering.Least` | backend/src/mooc/routes/payment/application/payment.ts:133 | the element lies in the set and is below every other element |
| `InstanceRepository.AfterWrite` | backend/src/mooc/routes/instance/infranstructure/Database/instanceRepository.ts:80-82 | `updateOne({ _id }, { [key]: value })` under a stored `_id` (callers holding a caller's text cast it first): same ids, every other record unchanged, the named record written, a missing id changes nothing, records stay under their own `_id` |
| `InstanceRepository.WriteChangesOneField` | backend/src/mooc/routes/instance/infranstructure/Database/instanceRepository.ts:63-82 | each single-field write (`updateQr`, `saveWebhookUrl`, `saveName`, …) sets its field to its value and changes no other field |
| `InstanceRepository.StatusUpdated` | backend/src/mooc/routes/instance/infranstructure/Database/instanceRepository.ts:67-70 | `updateStatus`: same ids, other records unchanged, the status is set, `initialDate` is `now` when the status is `initial` and untouched otherwise |
| `InstanceRepository.StatusUpdateKeepsOtherFields` | backend/src/mooc/routes/instance/infranstructure/Database/instanceRepository.ts:67-70 | `updateStatus` changes no field but `status` and `initialDate` |
| `InstanceRepository.StatusInitialStamps` | backend/src/mooc/routes/instance/infranstructure/Database/instanceRepository.ts:67-70 | status `initial` on a stored record amounts to one record update that sets both the status and the stamp |
| `InstanceRepository.InitialTwiceKeepsLastStamp` | backend/src/mooc/routes/instance/infranstructure/Database/instanceRepository.ts:67-70 | writing `initial` at t1 and then at t2 leaves the store as writing it at t2 alone would |
| `InstanceRepository.OverlayReplacesDefinedFields` | backend/src/mooc/routes/instance/infranstructure/Database/instanceRepository.ts:12-15 | overwriting a record with an instance replaces every field the instance defines and keeps every other field |
| `InstanceRepository.Inserted` | backend/src/mooc/routes/instance/infranstructure/Database/instanceRepository.ts:16-32 | a new record gets a fresh `_id` and token; `createdIn`, `endService` and `initialDate` are equal (the month-later instant); nothing else differs from the input |
| `InstanceRepository.UpdateResult` | backend/src/mooc/routes/instance/infranstructure/Database/instanceRepository.ts:11-33 | `update` returns its input unchanged when it names an `_id`, and otherwise the record with the fresh `_id` and token |
| `InstanceRepository.Updated` | backend/src/mooc/routes/instance/infranstructure/Database/instanceRepository.ts:11-33 | a named `_id` keeps the key set and overlays that record (nothing happens for an unknown id); no `_id` adds exactly the fresh key; no other record changes |
| `InstanceRepository.FindByIdAndToken` | backend/src/mooc/routes/instance/infranstructure/Database/instanceRepository.ts:44-49 | a record is found iff the id is an ObjectId, the record its cast names is stored, and its token matches; the result is that record without `userId`, carrying the stored `_id` |
| `InstanceRepository.FindByIdAndUserId` | backend/src/mooc/routes/instance/infranstructure/Database/instanceRepository.ts:35-42 | found iff the id is an ObjectId, the record its cast names is stored, and the user is an admin or owns it; the result is that record without `userId` |
| `InstanceRepository.Cast` | backend/src/mooc/routes/instance/infranstructure/Database/instanceRepository.ts:47 | the `_id` a caller's text casts to, as the stored record's `_id` prints: the same length, each hex letter in lower case |
| `InstanceRepository.CastIsCanonical` | backend/src/mooc/routes/instance/infranstructure/Database/instanceRepository.ts:45-47 | the cast of an ObjectId is lower-case ObjectId text, and casting it again changes nothing |
| `InstanceRepository.LookupIgnoresLetterCase` | backend/src/mooc/routes/instance/infranstructure/Database/instanceRepository.ts:35-49 | two spellings of one ObjectId find the same instance, by token and by owner |
| `InstanceRepository.Deleted` | backend/src/mooc/routes/instance/infranstructure/Database/instanceRepository.ts:59-61 | only a record matching both the cast `_id` and the owner is removed; otherwise the store is unchanged; the remaining records are untouched |
| `InstanceRepository.DeletedInstanceIsNotFound` | backend/src/mooc/routes/instance/infranstructure/Database/instanceRepository.ts:59-61 | after its owner deletes it, nobody, admin or not, finds the instance by that id |
| `InstanceRepository.Listed` | backend/src/mooc/routes/instance/infranstructure/Database/instanceRepository.ts:51-57 | `get`: every result is a stored record matching the query; results go by `_id` descending; a matching record is listed iff its rank is within `skip`/`limit`; at most `limit` results |
| `InstanceRepository.FindBySubscription` | backend/src/mooc/routes/payment/application/payment.ts:133 | `findOne({ subscriptionId })`: none iff no record carries the subscription; otherwise a stored record carrying it (which one, when several do, is the model's choice: see Left out) |
| `InstanceRepository.FindBySubscriptionTakesLeast` | backend/src/mooc/routes/payment/application/payment.ts:76 | the modelling choice made explicit: of several records on one subscription, the one found has the least `_id` |
| `InstanceRepository.InstanceStore.Update` | backend/src/mooc/routes/instance/infranstructure/Database/instanceRepository.ts:11-33 | the new map is `Updated(old)` and the result is `UpdateResult` |
| `InstanceRepository.InstanceStore.UpdateInstance` | backend/src/mooc/routes/instance/infranstructure/Database/instanceRepository.ts:80-82 | the new map is `AfterWrite(old, id, w)` |
| `InstanceRepository.InstanceStore.UpdateQr` | backend/src/mooc/routes/instance/infranstructure/Database/instanceRepository.ts:63-65 | the new map is the `qr` write |
| `InstanceRepository.InstanceStore.UpdateStatus` | backend/src/mooc/routes/instance/infranstructure/Database/instanceRepository.ts:67-70 | the new map is `StatusUpdated(old, id, s, now)`, reached by two single-field writes |
| `InstanceRepository.InstanceStore.SaveWebhookUrl` | backend/src/mooc/routes/instance/infranstructure/Database/instanceRepository.ts:72-74 | text that is not an ObjectId rejects and writes nothing; an ObjectId gives the `webhookUrl` write on the record it casts to |
| `InstanceRepository.InstanceStore.SaveName` | backend/src/mooc/routes/instance/infranstructure/Database/instanceRepository.ts:76-78 | text that is not an ObjectId rejects and writes nothing; an ObjectId gives the `name` write on the record it casts to |
| `InstanceRepository.InstanceStore.UpdateEndService` | backend/src/mooc/routes/payment/application/payment.ts:97 | the new map is the `endService` write |
| `InstanceRepository.InstanceStore.UpdateSubscriptionId` | backend/src/mooc/routes/payment/application/payment.ts:154 | the new map is the `subscriptionId` write |
| `InstanceRepository.InstanceStore.UpdatePaymentLink` | backend/src/mooc/routes/payment/application/payment.ts:156 | the new map is the `paymentLink` write |
| `InstanceRepository.InstanceStore.Delete` | backend/src/mooc/routes/instance/infranstructure/Database/instanceRepository.ts:59-61 | text that is not an ObjectId rejects and deletes nothing; otherwise the new map is `Deleted(old, id, userId)` |
| `UserRepository.FindUser` | backend/src/mooc/routes/payment/application/payment.ts:139 | a defined id finds the user stored under it, and nobody when none is; an undefined id drops out of the filter (`findOne({})`), so a stored user is found whenever the directory is not empty, the one with the least id |
| `WhatsApp.Client.Destroy` | backend/src/mooc/whatsAppControl/infranstructure/whatsApp.ts:131 | the client is destroyed and its state queries reject from then on |
| `WhatsApp.Client.Logout` | backend/src/mooc/whatsAppControl/infranstructure/whatsApp.ts:153 | the client is logged out; nothing else about it changes |
| `WhatsApp.Client.Initialize` | backend/src/mooc/whatsAppControl/infranstructure/whatsApp.ts:195 | a successful `initialize()` leaves the client initialized and reporting what `getState()` then yields; a rejected one changes nothing |
| `WhatsApp.WhatsAppController.constructor` | backend/src/mooc/whatsAppControl/infranstructure/whatsApp.ts:14 | the session table starts empty |
| `WhatsApp.WhatsAppController.GetStatus` | backend/src/mooc/whatsAppControl/infranstructure/whatsApp.ts:137-147 | no client or a rejected query gives `undefined`; a reported state is returned; a `null` report gives OPENING while the page is defined, else `undefined` |
| `WhatsApp.StatusOf` | backend/src/mooc/whatsAppControl/infranstructure/whatsApp.ts:141-143 | what `getStatus` makes of a report while the page reference is defined: a rejected query gives `undefined`, a state is returned, `null` gives OPENING |
| `WhatsApp.WhatsAppController.Destroy` | backend/src/mooc/whatsAppControl/infranstructure/whatsApp.ts:127-135 | the table is unchanged (no entry removed); the key's client, if any, is destroyed and reports no status; only that client changes |
| `WhatsApp.WhatsAppController.Restart` | backend/src/mooc/whatsAppControl/infranstructure/whatsApp.ts:122-125 | the same as destroying the instance's key: the table is unchanged, no client is started and nothing is written |
| `WhatsApp.WhatsAppController.Start` | backend/src/mooc/whatsAppControl/infranstructure/whatsApp.ts:168-202 | no `_id`, no screen id, or a CONNECTED/OPENING session: nothing changes, no client included. Otherwise the status becomes `initial` stamped at the last attempt's clock reading, the old client is destroyed, and exactly the key is remapped to a fresh initialized client whose status is what it reports when up |
| `WhatsApp.WhatsAppController.Launch` | backend/src/mooc/whatsAppControl/infranstructure/whatsApp.ts:176-201 | past the guards, after any number of rejected attempts, the key maps to a fresh initialized client of the instance, and the store holds `initial` stamped at the last clock reading |
| `WhatsApp.WhatsAppController.Retry` | backend/src/mooc/whatsAppControl/infranstructure/whatsApp.ts:196-201 | after a rejected attempt the key is destroyed and `start` runs again on the remaining readings; its guards pass because the destroyed client reports nothing |
| `WhatsApp.SpacedStampIsLate` | backend/src/mooc/whatsAppControl/infranstructure/whatsApp.ts:183-200 | when every rejection waits 10 000 ms before the next attempt, the stamp that stays is at least 10 000 ms per rejection after the first attempt's reading |
| `WhatsApp.WhatsAppController.Attempt` | backend/src/mooc/whatsAppControl/infranstructure/whatsApp.ts:177-195 | one attempt: status `initial` at its reading, the previous client destroyed, the key mapped to a new client of the instance and initialized |
| `WhatsApp.WhatsAppController.Logout` | backend/src/mooc/whatsAppControl/infranstructure/whatsApp.ts:149-157 | text that is not an ObjectId makes the status write throw, and nothing changes; otherwise `pending` is written on the record the id casts to, and the client under the text `instanceId ++ token`, if any, is logged out; the table is unchanged |
| `WhatsApp.WhatsAppController.OnQr` | backend/src/mooc/whatsAppControl/infranstructure/whatsApp.ts:44-47 | status `pending`, then the new `qr`; the stored record then holds both |
| `WhatsApp.WhatsAppController.OnAuthenticated` | backend/src/mooc/whatsAppControl/infranstructure/whatsApp.ts:58-65 | status `authenticated` |
| `WhatsApp.WhatsAppController.OnDisconnected` | backend/src/mooc/whatsAppControl/infranstructure/whatsApp.ts:67-79 | status `pending` when the instance has an `_id`; otherwise nothing |
| `WhatsApp.WhatsAppController.OnMessage` | backend/src/mooc/whatsAppControl/infranstructure/whatsApp.ts:97-109 | a message is forwarded iff the instance has `_id` and `userId` and the id/owner lookup finds it |
| `WhatsApp.WhatsAppController.OnWindowClose` | backend/src/mooc/whatsAppControl/infranstructure/whatsApp.ts:81-89 | closing the page starts the instance again, with the guards and effects of `start`: when it proceeds, the old client is destroyed, a fresh initialized client of the instance is filed, its status follows the reached state and the stamp is the last clock reading; otherwise no client changes |
| `WhatsApp.WhatsAppController.Send` | backend/src/mooc/whatsAppControl/infranstructure/whatsApp.ts:19-42 | a text goes iff there is a screen id with a client and both `to` and `body`; otherwise a document goes iff there is a client, a document and a known extension; the chat id is `to@c.us`, sent on the key's client |
| `InstanceUseCases.ShouldAutoRestart` | backend/src/mooc/routes/instance/application/instance.ts:110-120 | restart iff no runtime status and `initialDate` is strictly within a minute of now; never from one minute after `initialDate` on |
| `InstanceUseCases.InstanceApp.Save` | backend/src/mooc/routes/instance/application/instance.ts:31-51 | a validator error gives 422 with that error and no write or start; otherwise the record is written, `start(saved, 'start')` has its effect (when it proceeds, the old client is destroyed and a fresh initialized client of the saved instance is filed, with the reached status; no client changes when its guards stop it), and the answer is 200 with the saved instance |
| `InstanceUseCases.InstanceApp.FindById` | backend/src/mooc/routes/instance/application/instance.ts:53-66 | 200 iff the id/owner lookup (with admin override) finds the record its cast names, carrying it without `userId`; otherwise 422 "Instance … not found" |
| `InstanceUseCases.InstanceApp.Get` | backend/src/mooc/routes/instance/application/instance.ts:68-80 | 400 "Invalid search" iff `skip` or `limit` is missing or empty (`validateSearchHttp`, lines 26-29); a negative `skip` rejects; otherwise 200 with the `Listed` page, a negative `limit` counting as its absolute value |
| `InstanceUseCases.InstanceApp.Delete` | backend/src/mooc/routes/instance/application/instance.ts:82-88 | an id that is not an ObjectId rejects and deletes nothing; otherwise the store becomes `Deleted(old)` and the answer is 200 "ok"; the session table is unchanged |
| `InstanceUseCases.InstanceApp.Found` | backend/src/mooc/routes/instance/application/instance.ts:163-176 | the id/token lookup behind `getQr`, `restart` and `getRealStatus`: a record iff the token is non-empty and the lookup finds it; it carries the stored (cast) `_id` |
| `InstanceUseCases.InstanceApp.GetQr` | backend/src/mooc/routes/instance/application/instance.ts:90-131 | 422 on an empty token, or when no record or no screen id is found; a record without `initialDate` rejects; otherwise 200 with the stored `qr` and `status`; the status is read under the screen id of the text given, and the found record's session is destroyed when `ShouldAutoRestart` holds and no client changes when not; the stores are unchanged |
| `InstanceUseCases.InstanceApp.SaveWebhookUrl` | backend/src/mooc/routes/instance/application/instance.ts:133-146 | a URL-validator error gives 422 and no write; an id that is not an ObjectId rejects with no write; otherwise the `webhookUrl` write on the record the id casts to, and 200 |
| `InstanceUseCases.InstanceApp.SaveName` | backend/src/mooc/routes/instance/application/instance.ts:148-161 | an empty or missing name gives 422 and no write; an id that is not an ObjectId rejects with no write; otherwise the `name` write on the record the id casts to, and 200 |
| `InstanceUseCases.InstanceApp.Restart` | backend/src/mooc/routes/instance/application/instance.ts:163-183 | 422 on an empty token, 404 when no record; otherwise the found record's session is destroyed and the answer is 200; nothing is written and no client is started |
| `InstanceUseCases.InstanceApp.GetRealStatus` | backend/src/mooc/routes/instance/application/instance.ts:185-206 | 422 on an empty token, 404 when no record; otherwise 200 with `getStatus` of the found record's screen id (the empty key when there is none) |
| `InstanceUseCases.InstanceApp.Logout` | backend/src/mooc/routes/instance/application/instance.ts:208-222 | 422 and no write unless both id and token are given; otherwise 200, with the controller's logout: nothing for an id that is not an ObjectId, else `pending` on the cast id and the key's client logged out |
| `Payment.WithStatus` | backend/src/mooc/routes/payment/application/payment.ts:99 | the subscription's status is set and nothing else changes |
| `Payment.WithInstance` | backend/src/mooc/routes/payment/application/payment.ts:157 | the subscription is tied to the instance and nothing else changes |
| `Payment.Owner` | backend/src/mooc/routes/payment/application/payment.ts:139 | an owner exists only when some instance carries the subscription |
| `Payment.CancelledRecords` | backend/src/mooc/routes/payment/application/payment.ts:132-158 | the instance store after a cancellation: same ids; without an instance nothing changes |
| `Payment.CancelSuspends` | backend/src/mooc/routes/payment/application/payment.ts:138 | a cancellation always leaves the instance `unpayment` and every other record as it was |
| `Payment.CancelWithoutRelinkSuspendsOnly` | backend/src/mooc/routes/payment/application/payment.ts:138-145 | without a relink, the status is the only field of the instance that changes |
| `Payment.CancelRelinks` | backend/src/mooc/routes/payment/application/payment.ts:152-156 | a relink gives the instance the new subscription id, no end of service and the first link, and changes no field beyond those and the status |
| `Payment.Relinked` | backend/src/mooc/routes/payment/application/payment.ts:154-156 | the three writes amount to one record update of `subscriptionId`, `endService` and `paymentLink`; no other record changes |
| `Payment.CancelledPayments` | backend/src/mooc/routes/payment/application/payment.ts:146-157 | without an owner or with an invalid reply nothing changes; otherwise exactly the new subscription is added for the owner, tied to the instance iff there is a link |
| `Payment.CancelOwner` | backend/src/mooc/routes/payment/application/payment.ts:139-152 | the owner is the user of the found instance; the call rejects and relinks exactly in the stated cases |
| `Payment.OwnerlessInstanceRelinks` | backend/src/mooc/routes/payment/application/payment.ts:139-157 | an instance without `userId` still has a stored user as owner when any user exists, and a valid reply with a link relinks it without rejecting |
| `Payment.CancelRelinkStores` | backend/src/mooc/routes/payment/application/payment.ts:146-157 | with an owner, a valid reply and a link, the stores are the suspension then the relink, and the new subscription tied to the instance |
| `Payment.CancelWithoutLinkStores` | backend/src/mooc/routes/payment/application/payment.ts:146-152 | with an owner and a valid reply but no link, the instance is only suspended and the new subscription is saved untied |
| `Payment.CancelWithoutOwnerStores` | backend/src/mooc/routes/payment/application/payment.ts:142-145 | with no owner or an invalid reply, the instance is only suspended and the subscriptions are unchanged |
| `Payment.CancelAlwaysSuspends` | backend/src/mooc/routes/payment/application/payment.ts:138-152 | a cancellation that rejects has still suspended the instance and done nothing more to it |
| `Payment.CaptureRefusal` | backend/src/mooc/routes/payment/application/payment.ts:59-95 | 404 for a missing subscription, 201 for an ACTIVE one, 404 without an instance, 422 when the provider does not report ACTIVE; no refusal exactly when all checks pass |
| `Payment.CaptureTwiceIsRefused` | backend/src/mooc/routes/payment/application/payment.ts:69-74 | once a capture has gone through, a second capture is refused with 201 |
| `Payment.PaymentStore.SaveSubscription` | backend/src/mooc/routes/payment/application/payment.ts:55 | the subscription is stored under its provider id |
| `Payment.PaymentStore.UpdateStatus` | backend/src/mooc/routes/payment/application/payment.ts:99 | the store becomes `WithStatus(old)` |
| `Payment.PaymentStore.UpdateInstanceId` | backend/src/mooc/routes/payment/application/payment.ts:157 | the store becomes `WithInstance(old)` |
| `Payment.PaymentApp.InstanceFor` | backend/src/mooc/routes/payment/application/payment.ts:76 | the instance found for a subscription has an `_id` and carries that subscription |
| `Payment.PaymentApp.CreateSubscription` | backend/src/mooc/routes/payment/application/payment.ts:47-57 | a validator error rejects without saving; otherwise the reply is saved for the user and returned |
| `Payment.PaymentApp.CaptureSubscription` | backend/src/mooc/routes/payment/application/payment.ts:59-113 | a refusal is returned and nothing changes; otherwise `endService` is next month, the status `initial`, the subscription ACTIVE, `start(instance, 'payment')` has its effect (when it proceeds, the old client is destroyed and a fresh initialized client of the instance is filed, with the reached status; no client changes when its guards stop it), and the envelope has no status code |
| `Payment.PaymentApp.Activate` | backend/src/mooc/routes/payment/application/payment.ts:96-99 | the capture's three writes: end of service, status `initial` at `now`, subscription ACTIVE |
| `Payment.PaymentApp.CancelSubscription` | backend/src/mooc/routes/payment/application/payment.ts:132-158 | the stores become `CancelledRecords` and `CancelledPayments` of the old stores; it rejects iff `CancelThrows`; the table is unchanged; the instance's client is destroyed, and no client changes when there is no instance |
| `Payment.PaymentApp.CancelFound` | backend/src/mooc/routes/payment/application/payment.ts:138-157 | the same, for a subscription whose instance is found |
| `Payment.PaymentApp.Suspend` | backend/src/mooc/routes/payment/application/payment.ts:138-141 | status `unpayment`, and the instance's client destroyed |
| `Payment.PaymentApp.RebillOwner` | backend/src/mooc/routes/payment/application/payment.ts:139-157 | after the suspension, the owner lookup and new subscription bring the stores to `CancelledRecords`/`CancelledPayments`, and no client changes |
| `Payment.PaymentApp.Resubscribe` | backend/src/mooc/routes/payment/application/payment.ts:142-157 | no owner: nothing more; an invalid reply: rejects without writing; no link: rejects after saving the subscription; otherwise it saves and relinks |
| `Payment.PaymentApp.Relink` | backend/src/mooc/routes/payment/application/payment.ts:152-157 | the instance store becomes `Relinked(old)` and the subscription is tied to the instance |
| `Payment.PaymentApp.EventsControls` | backend/src/mooc/routes/payment/application/payment.ts:122-130 | only a `BILLING.SUBSCRIPTION.CANCELLED` event cancels, and then both stores become those of `cancelSubscription` and the instance's client is destroyed; any other event changes nothing; the answer is always "ok" unless the cancellation rejects |

## Left out

- Some versions of the bson library behind `ObjectId.isValid` also accept any 12-character string, which is then cast as twelve raw bytes. The model takes only the 24-hex-digit text form to be an ObjectId.
- `InstanceRepository.Updated`: `null` and `undefined` are one value, `None`. A body with `_id: null` passes the `!== undefined` test at instanceRepository.ts:12, so the source runs `updateOne({ _id: null }, …)`, which matches nothing and inserts nothing; the model inserts a fresh record instead. The `_id` in `save`'s body is also matched as given: an upper-case spelling of a stored ObjectId, or text that is no ObjectId (a cast error in the source), matches nothing here.
- `InstanceRepository.OverlayReplacesDefinedFields`: a body field sent as `null` is set to `null` by `updateOne`. In the model it is `None`, so the stored value is kept.
- `InstanceRepository.InstanceStore.Update`: inherits both gaps of `Updated` (a `null` `_id` inserts, a `null` field keeps the stored value).
- `WhatsApp.WhatsAppController.Start`: an `_id` of `null` passes `start`'s `_id === undefined` guard in the source; in the model it is `None` and stops `start`. The status write uses the instance's `_id` exactly as given, without the cast. So do the status writes of the `qr`, `authenticated` and `disconnected` hooks (`WhatsApp.WhatsAppController.OnQr`, `WhatsApp.WhatsAppController.OnAuthenticated`, `WhatsApp.WhatsAppController.OnDisconnected`), which use `client.instanceId` as given.
- `WhatsApp.WhatsAppController.Send`: a `body` or `to` of `null` passes `!== undefined` in the source and reaches `sendMessage`; in the model it is `None`, so no text is sent.
- `getScreenId` comes from two modules: whatsApp.ts:10 and instance.ts:9 import the session controller's own, and payment.ts:7 imports a shared one. Neither is part of this model. A single `screenIdOf` stands for both, so the two are taken to agree on every instance.
- `InstanceRepository.FindBySubscription`: Mongo promises no order for an unsorted `findOne`, so which of several instances on one subscription it returns is unspecified, and ObjectIds made by different processes need not grow with insertion. The model picks the least `_id` (`FindBySubscriptionTakesLeast`). This is a modelling choice, not a property of the source.
- `Payment.Owner`: rests on the same choice, through `FindBySubscription`, and, for an instance without `userId`, on the choice of user in `FindUser`.
- `UserRepository.FindUser`: the user repository file is not part of this model; it is taken to hand the filter to Mongoose unchanged, as the instance repository does. With an undefined `userId` the query is `findOne({})`, which returns an arbitrary user; the model takes the user with the least id, a modelling choice. `Payment.Owner`, `Payment.CancelThrows` and `Payment.CancelledPayments` inherit it.
- `InstanceUseCases.InstanceApp.Get`: a negative `limit` asks Mongo for a single batch of at most |`limit`| documents. The model lists exactly the first |`limit`| matches, leaving out the batch-size cap. Text that is not a number is not modelled: a bound is missing, empty or an integer.
- `InstanceRepository.Listed`: takes natural `skip` and `limit`; `Get` handles the negative values before calling it.
- Concurrency. The fire-and-forget `start` promises (instance.ts:40, payment.ts:100) run to completion in sequence, and calls do not interleave.
- `WhatsApp.WhatsAppController.Start`: the retry after a failed `initialize()` recurses without bound. The model takes the clock readings of all attempts, a finite `Clock`, as input, so a start that never succeeds is not modelled.
- `WhatsApp.WhatsAppController.Start`: only `initialize()` is taken to fail. Failures of the status write or the client constructor inside `start`'s `try` are not modelled.
- `WhatsApp.Client.Initialize`: what the client reports once it is up is a parameter (`ready`), so the model says nothing about which state the library reaches; the status after `start` is `StatusOf(ready)`.
- The page-load poll `onScreenLoad` (whatsApp.ts:82) is not modelled beyond the `close` hook it installs (`OnWindowClose`). `waitInstanceStatus` (whatsApp.ts:159-166) is not modelled either: its loop waits on real time, and no core operation calls it.
- The `auth_failure` hook only logs, so it has no counterpart.
- Logging and the `console`/`Logs` calls are not modelled.
- `WhatsApp.WhatsAppController.Send`: which `sendMessage` call is made, not its delivery. A `MessageMedia.fromUrl` or `sendMessage` failure is caught and logged, so it has no effect on the model. When `MessageMedia.fromUrl` fails, the source makes no `sendMessage` call at all, yet the model still reports the document as sent.
- `WhatsApp.Client`: the whatsapp-web.js client is reduced to the state it reports and flags for initialize, destroy and logout. After `logout()` the client only carries the flag. What the library then reports is left to `Client.Observe`.
- `getScreenId`, the instance, URL and subscription validators, `getMessageMediaExtension` and `findInstanceQuery` are not part of this model. They are constant functions given to the classes.
- `isEmptyNullOrUndefined` on text is `IsBlank`: undefined or empty.
- Clocks and the billing provider's HTTP replies are parameters:
  - `now`, `nextMonth` (`addMonthDate`) and the `Clock` of a `start`;
  - the provider's status for a capture;
  - its reply to a subscription request.
- `Payment.PaymentApp.CaptureSubscription`: the owner lookup and the subscription e-mail after the start (payment.ts:104-109) are left out. They change no store the model has. If `findById` or `subscriptionEmail.send` rejects there, the source call rejects instead of answering "The instance is initialized successfully"; the model does not cover that rejection.
- `Payment.PaymentApp.CancelSubscription`: `updateStatus(..., 'unpayment')` stamps nothing, so the clock it would read is passed as 0.
- The payment repository file is not part of this model. Subscriptions are a map keyed by the provider's id: `saveSubscription` stores under that id, and `updateStatus`/`updateInstanceId` write the entry with that id.
- `InstanceUseCases.InstanceApp.Get`: the `userId` argument is ignored, as in the source.
- `InstanceRepository.InstanceStore.UpdateEndService`, `InstanceRepository.InstanceStore.UpdateSubscriptionId`, `InstanceRepository.InstanceStore.UpdatePaymentLink` and `InstanceRepository.FindBySubscription`: their definitions are not part of this model, only their call sites (payment.ts:76, 97, 133, 154, 156). They are taken to be, like the repository methods that are, single-field `updateOne` writes on the given `_id` and a plain `findOne({ subscriptionId })`.
- `findInstanceQuery` is an abstract predicate over records.
- `getQrAndStatus` and `getAllInstance` (instanceRepository.ts:84-92) have no callers in the core and are not modelled.
- Dates are integer milliseconds. The calendar arithmetic of `setMonth`/`addMonthDate` is an input, `monthLater` / `nextMonth`.
