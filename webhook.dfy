/**
 * The payment-provider webhook (`POST /api/webhook`): the signature gate,
 * then a dispatch on the event type.  A completed checkout provisions a
 * customer (new key, its hash stored, the key emailed); a subscription
 * update or deletion copies the new status onto the customer's rows; any
 * other event is acknowledged and ignored.  Signature verification, the
 * random source, the hash function, the database and the email provider
 * are inputs.
 */
module Webhook {
  import opened Wrappers
  import opened ApiKeys
  import opened Customers
  import opened OnboardingEmail

  /**
   * A verified event, reduced to the fields the handler reads.  `OtherEvent`
   * stands for an event whose type is none of the three handled names.
   */
  datatype Event =
    | CheckoutSessionCompleted(customerEmail: Option<string>, customer: string, metadataTier: Option<string>)
    | SubscriptionUpdated(customer: string, status: string)
    | SubscriptionDeleted(customer: string, status: string)
    | OtherEvent(eventType: string)

  /** What signature verification (`constructEvent`) yields for the raw body. */
  datatype Verification = Verified(event: Event) | VerificationFailed(message: string)

  /** One delivery: the `stripe-signature` header and what verifying it against the body gives. */
  datatype Delivery = Delivery(signature: Option<string>, verification: Verification)

  /** The outcomes of the database insert and update and of the email send. */
  datatype Services = Services(insert: DbResult, update: DbResult, send: SendResult)

  datatype Response =
    | MissingSignature              // 400
    | WebhookError(message: string) // 400, verification failed
    | HandlerFailed(message: string) // 500, the provider will retry
    | Received                      // 200 { received: true }

  function StatusCode(r: Response): int {
    match r
    case MissingSignature => 400
    case WebhookError(_) => 400
    case HandlerFailed(_) => 500
    case Received => 200
  }

  /**
   * The response, the table afterwards, the record inserted (if the insert
   * succeeded) and the email handed to a send call that did not throw
   * (if any).
   */
  datatype Outcome = Outcome(response: Response, rows: seq<Customer>, inserted: Option<Customer>, sent: Option<Email>)

  /** The event types the handler dispatches on. */
  const HandledTypes: set<string> :=
    {"checkout.session.completed", "customer.subscription.updated", "customer.subscription.deleted"}

  const ActiveStatus: string := "active"
  const NoEmailMessage: string := "No customer email found"

  /** The record a completed checkout inserts: the hash of the key, never the key. */
  function NewCustomer(customer: string, email: string, keyHash: string, tier: string, createdAt: string): Customer {
    Customer(customer, email, keyHash, tier, ActiveStatus, createdAt)
  }

  /**
   * The handler for one delivery.  `entropy` stands for the 32 random bytes
   * `generateApiKey` draws, `hash` for SHA-256 in hex, `createdAt` for the
   * insert's timestamp.
   */
  function Handle(rows: seq<Customer>, d: Delivery, entropy: Entropy, hash: string -> string,
                  createdAt: string, services: Services): (o: Outcome)
    ensures o.inserted.Some? ==>
      o.rows == rows + [o.inserted.value] && o.inserted.value.apiKeyHash == hash(GenerateApiKey(entropy))
    ensures o.inserted.None? ==> |o.rows| == |rows|
    ensures o.sent.Some? ==>
      o.response == Received && o.inserted.Some? && hash(o.sent.value.apiKey) == o.inserted.value.apiKeyHash
  {
    if !IsPresent(d.signature) then Outcome(MissingSignature, rows, None, None)
    else match d.verification
      case VerificationFailed(message) => Outcome(WebhookError(message), rows, None, None)
      case Verified(event) =>
        match event
        case CheckoutSessionCompleted(customerEmail, customer, metadataTier) =>
          var tier := OrElse(metadataTier, DefaultTier);
          if !IsPresent(customerEmail) then Outcome(HandlerFailed(NoEmailMessage), rows, None, None)
          else
            var apiKey := GenerateApiKey(entropy);
            var record := NewCustomer(customer, customerEmail.value, hash(apiKey), tier, createdAt);
            (match services.insert
             case DbError(message) => Outcome(HandlerFailed(message), rows, None, None)
             case DbOk =>
               var email := ComposeApiKeyEmail(customerEmail.value, apiKey, tier);
               match services.send
               case SendFailed(message) => Outcome(HandlerFailed(message), rows + [record], Some(record), None)
               case Delivered => Outcome(Received, rows + [record], Some(record), Some(email)))
        case SubscriptionUpdated(customer, status) =>
          Outcome(Received, StatusUpdate(rows, customer, status, services.update), None, None)
        case SubscriptionDeleted(customer, status) =>
          Outcome(Received, StatusUpdate(rows, customer, status, services.update), None, None)
        case OtherEvent(_) => Outcome(Received, rows, None, None)
  }

  /** The table after the best-effort status update: unchanged when the update fails. */
  function StatusUpdate(rows: seq<Customer>, customer: string, status: string, update: DbResult): seq<Customer> {
    if update.DbOk? then SetSubscriptionStatus(rows, customer, status) else rows
  }

  /** The handler as it runs, step by step, against the customers table. */
  method Post(db: CustomerTable, d: Delivery, entropy: Entropy, hash: string -> string,
              createdAt: string, services: Services)
    returns (response: Response, inserted: Option<Customer>, sent: Option<Email>)
    modifies db
    ensures Handle(old(db.rows), d, entropy, hash, createdAt, services) == Outcome(response, db.rows, inserted, sent)
  {
    inserted, sent := None, None;
    if !IsPresent(d.signature) {
      return MissingSignature, None, None;
    }
    if d.verification.VerificationFailed? {
      return WebhookError(d.verification.message), None, None;
    }
    var event := d.verification.event;
    match event {
      case CheckoutSessionCompleted(customerEmail, customer, metadataTier) =>
        var tier := OrElse(metadataTier, DefaultTier);
        if !IsPresent(customerEmail) {
          return HandlerFailed(NoEmailMessage), None, None;
        }
        var apiKey := GenerateApiKey(entropy);
        var apiKeyHash := hash(apiKey);
        var record := NewCustomer(customer, customerEmail.value, apiKeyHash, tier, createdAt);
        var dbError := db.Insert(record, services.insert);
        if dbError.Some? {
          return HandlerFailed(dbError.value), None, None;
        }
        inserted := Some(record);
        var email := ComposeApiKeyEmail(customerEmail.value, apiKey, tier);
        if services.send.SendFailed? {
          return HandlerFailed(services.send.message), inserted, None;
        }
        sent := Some(email);
      case SubscriptionUpdated(customer, status) =>
        var updateError := db.UpdateSubscriptionStatus(customer, status, services.update);
      case SubscriptionDeleted(customer, status) =>
        var updateError := db.UpdateSubscriptionStatus(customer, status, services.update);
      case OtherEvent(_) =>
    }
    response := Received;
  }

  /**
   * Without a signature the answer is 400 whatever the body would verify
   * to: verification is never consulted, and nothing is stored or sent.
   */
  lemma MissingSignatureRejected(rows: seq<Customer>, signature: Option<string>, v1: Verification, v2: Verification,
                                 entropy: Entropy, hash: string -> string, createdAt: string, services: Services)
    requires !IsPresent(signature)
    ensures Handle(rows, Delivery(signature, v1), entropy, hash, createdAt, services) ==
            Handle(rows, Delivery(signature, v2), entropy, hash, createdAt, services)
    ensures Handle(rows, Delivery(signature, v1), entropy, hash, createdAt, services) ==
            Outcome(MissingSignature, rows, None, None)
  {
  }

  /**
   * A 400 happens exactly when the signature is missing or fails to verify,
   * and such a delivery has no effect: no row changes, nothing is inserted
   * and no email goes out.
   */
  lemma RejectedBeforeAnyEffect(rows: seq<Customer>, d: Delivery, entropy: Entropy, hash: string -> string,
                                createdAt: string, services: Services)
    ensures StatusCode(Handle(rows, d, entropy, hash, createdAt, services).response) == 400 <==>
      (!IsPresent(d.signature) || d.verification.VerificationFailed?)
    ensures StatusCode(Handle(rows, d, entropy, hash, createdAt, services).response) == 400 ==>
      Handle(rows, d, entropy, hash, createdAt, services) ==
      Outcome(Handle(rows, d, entropy, hash, createdAt, services).response, rows, None, None)
  {
  }

  /** A completed checkout without a customer email fails with 500 before any insert or email. */
  lemma CheckoutWithoutEmailFails(rows: seq<Customer>, sig: string, customerEmail: Option<string>, customer: string,
                                  tier: Option<string>, entropy: Entropy, hash: string -> string,
                                  createdAt: string, services: Services)
    requires sig != "" && !IsPresent(customerEmail)
    ensures Handle(rows, Delivery(Some(sig), Verified(CheckoutSessionCompleted(customerEmail, customer, tier))),
                   entropy, hash, createdAt, services) ==
            Outcome(HandlerFailed(NoEmailMessage), rows, None, None)
  {
  }

  /**
   * A completed checkout with an email and a successful insert appends
   * exactly one active record holding the hash of the generated key, with
   * the session's tier or "pro"; the email goes to the customer and carries
   * the very key whose hash was stored.  If the email then fails the answer
   * is 500 but the record stays.  A failed insert answers 500 and sends
   * nothing.
   */
  lemma CheckoutProvisions(rows: seq<Customer>, sig: string, customerEmail: string, customer: string,
                           tier: Option<string>, entropy: Entropy, hash: string -> string,
                           createdAt: string, services: Services)
    requires sig != "" && customerEmail != ""
    ensures var o := Handle(rows, Delivery(Some(sig), Verified(CheckoutSessionCompleted(Some(customerEmail), customer, tier))),
                            entropy, hash, createdAt, services);
      var key := GenerateApiKey(entropy);
      && (services.insert.DbError? ==>
            o == Outcome(HandlerFailed(services.insert.message), rows, None, None))
      && (services.insert.DbOk? ==>
            && o.inserted.Some?
            && o.rows == rows + [o.inserted.value]
            && o.inserted.value.apiKeyHash == hash(key)
            && o.inserted.value.subscriptionStatus == ActiveStatus
            && o.inserted.value.tier == OrElse(tier, DefaultTier)
            && o.inserted.value.email == customerEmail
            && o.inserted.value.stripeCustomerId == customer
            && (services.send.SendFailed? ==> o.response == HandlerFailed(services.send.message) && o.sent.None?)
            && (services.send.Delivered? ==>
                  && o.response == Received
                  && o.sent == Some(ComposeApiKeyEmail(customerEmail, key, o.inserted.value.tier))
                  && hash(o.sent.value.apiKey) == o.inserted.value.apiKeyHash))
  {
  }

  /**
   * A subscription update or deletion always answers 200; when the update
   * succeeds it sets the status on every row of that provider customer and
   * changes nothing else, and when it fails the table is unchanged.
   */
  lemma SubscriptionStatusSync(rows: seq<Customer>, sig: string, deleted: bool, customer: string, status: string,
                               entropy: Entropy, hash: string -> string, createdAt: string, services: Services)
    requires sig != ""
    ensures var e := if deleted then SubscriptionDeleted(customer, status) else SubscriptionUpdated(customer, status);
      var o := Handle(rows, Delivery(Some(sig), Verified(e)), entropy, hash, createdAt, services);
      && o.response == Received && o.inserted.None? && o.sent.None?
      && |o.rows| == |rows|
      && (services.update.DbError? ==> o.rows == rows)
      && (services.update.DbOk? ==>
            forall i :: 0 <= i < |rows| ==>
              o.rows[i] == if rows[i].stripeCustomerId == customer then rows[i].(subscriptionStatus := status) else rows[i])
  {
  }

  /** Any other event type is acknowledged with 200 and changes nothing. */
  lemma OtherEventIgnored(rows: seq<Customer>, sig: string, eventType: string,
                          entropy: Entropy, hash: string -> string, createdAt: string, services: Services)
    requires sig != "" && eventType !in HandledTypes
    ensures Handle(rows, Delivery(Some(sig), Verified(OtherEvent(eventType))), entropy, hash, createdAt, services) ==
            Outcome(Received, rows, None, None)
  {
  }

  /**
   * The insert is not idempotent: when the email of a completed checkout
   * fails and the provider redelivers the event, the customer ends up with
   * two records, each with the hash of a different key.
   */
  lemma RetryDuplicatesCustomer(rows: seq<Customer>, sig: string, customerEmail: string, customer: string,
                                tier: Option<string>, first: Entropy, second: Entropy, hash: string -> string,
                                createdAt: string, retriedAt: string, message: string)
    requires sig != "" && customerEmail != ""
    ensures var d := Delivery(Some(sig), Verified(CheckoutSessionCompleted(Some(customerEmail), customer, tier)));
      var o1 := Handle(rows, d, first, hash, createdAt, Services(DbOk, DbOk, SendFailed(message)));
      var o2 := Handle(o1.rows, d, second, hash, retriedAt, Services(DbOk, DbOk, Delivered));
      && StatusCode(o1.response) == 500 && StatusCode(o2.response) == 200
      && |o2.rows| == |rows| + 2
      && o2.rows[|rows|].stripeCustomerId == o2.rows[|rows| + 1].stripeCustomerId == customer
      && o2.rows[|rows|].email == o2.rows[|rows| + 1].email == customerEmail
      && o2.rows[|rows|].apiKeyHash == hash(GenerateApiKey(first))
      && o2.rows[|rows| + 1].apiKeyHash == hash(GenerateApiKey(second))
  {
  }
}
