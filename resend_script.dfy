/**
 * The manual re-key script (`resend-email-manual.ts <email>`): look the
 * customer up by email, generate a fresh key, overwrite the stored key hash,
 * and email the new key.  Each step can end the script with exit code 1.
 * Argument and environment checks, logging and the process exit itself are
 * not modelled; the database, email provider, random source and hash
 * function are inputs.
 */
module ResendScript {
  import opened Wrappers
  import opened ApiKeys
  import opened Customers
  import opened OnboardingEmail

  /** How the script ends; `Done` reports the tier and the printed key preview. */
  datatype ScriptResult =
    | CustomerNotFound
    | UpdateFailed(message: string)
    | EmailFailed(message: string)
    | Done(tier: string, keyPreview: string)

  function ExitCode(r: ScriptResult): int {
    if r.Done? then 0 else 1
  }

  /** The outcomes of the lookup, the update and the send. */
  datatype Services = Services(lookup: DbResult, update: DbResult, send: SendResult)

  /**
   * How the script ended, the table afterwards, and the email handed to a
   * send call that did not throw (if any).
   */
  datatype Outcome = Outcome(result: ScriptResult, rows: seq<Customer>, sent: Option<Email>)

  /** `customer.tier || 'pro'`. */
  function TierOrDefault(tier: string): (t: string)
    ensures t != ""
    ensures tier != "" ==> t == tier
    ensures tier == "" ==> t == DefaultTier
  {
    if tier == "" then DefaultTier else tier
  }

  /** The customer the lookup returns: none when the call fails or the email is not on exactly one row. */
  function Lookup(rows: seq<Customer>, customerEmail: string, lookup: DbResult): Option<Customer> {
    if lookup.DbOk? then SelectSingleByEmail(rows, customerEmail) else None
  }

  /** The whole script for one customer email. */
  function Run(rows: seq<Customer>, customerEmail: string, entropy: Entropy, hash: string -> string,
               services: Services): (o: Outcome)
    ensures o.sent.Some? <==> o.result.Done?
    ensures o.sent.Some? ==> o.sent.value.to == customerEmail && o.sent.value.apiKey == GenerateApiKey(entropy)
    ensures o.result.CustomerNotFound? || o.result.UpdateFailed? ==> o.rows == rows
  {
    var found := Lookup(rows, customerEmail, services.lookup);
    if found.None? then Outcome(CustomerNotFound, rows, None)
    else
      var newApiKey := GenerateApiKey(entropy);
      var newHash := hash(newApiKey);
      if services.update.DbError? then Outcome(UpdateFailed(services.update.message), rows, None)
      else
        var updated := SetApiKeyHash(rows, customerEmail, newHash);
        var tier := TierOrDefault(found.value.tier);
        match services.send
        case SendFailed(message) => Outcome(EmailFailed(message), updated, None)
        case Delivered =>
          Outcome(Done(tier, Preview(newApiKey)), updated, Some(ComposeApiKeyEmail(customerEmail, newApiKey, tier)))
  }

  /** The script as it runs, step by step, against the customers table. */
  method ResendEmail(db: CustomerTable, customerEmail: string, entropy: Entropy, hash: string -> string,
                     services: Services)
    returns (result: ScriptResult, sent: Option<Email>)
    modifies db
    ensures Run(old(db.rows), customerEmail, entropy, hash, services) == Outcome(result, db.rows, sent)
  {
    var customer := db.SelectSingle(customerEmail, services.lookup);
    if customer.None? {
      return CustomerNotFound, None;
    }
    // An existing hash changes nothing: a new key is generated either way.
    var newApiKey := GenerateApiKey(entropy);
    var newApiKeyHash := hash(newApiKey);
    var updateError := db.UpdateApiKeyHash(customerEmail, newApiKeyHash, services.update);
    if updateError.Some? {
      return UpdateFailed(updateError.value), None;
    }
    var tier := TierOrDefault(customer.value.tier);
    if services.send.SendFailed? {
      return EmailFailed(services.send.message), None;
    }
    sent := Some(ComposeApiKeyEmail(customerEmail, newApiKey, tier));
    result := Done(tier, Preview(newApiKey));
  }

  /**
   * The script stops at the lookup, with no update and no email, exactly
   * when the lookup fails or the email is not on exactly one row.
   */
  lemma LookupFailureStops(rows: seq<Customer>, customerEmail: string, entropy: Entropy, hash: string -> string,
                           services: Services)
    ensures Run(rows, customerEmail, entropy, hash, services).result == CustomerNotFound <==>
      (services.lookup.DbError? || !exists i :: OnlyRowWithEmail(rows, customerEmail, i))
    ensures ExitCode(Run(rows, customerEmail, entropy, hash, services).result) == 0 ==>
      Run(rows, customerEmail, entropy, hash, services).result.Done?
    ensures Run(rows, customerEmail, entropy, hash, services).result == CustomerNotFound ==>
      Run(rows, customerEmail, entropy, hash, services) == Outcome(CustomerNotFound, rows, None)
  {
  }

  /** A failed update ends the script before the email, with the table unchanged. */
  lemma UpdateFailureStops(rows: seq<Customer>, customerEmail: string, entropy: Entropy, hash: string -> string,
                           services: Services)
    requires Lookup(rows, customerEmail, services.lookup).Some? && services.update.DbError?
    ensures Run(rows, customerEmail, entropy, hash, services) ==
            Outcome(UpdateFailed(services.update.message), rows, None)
    ensures ExitCode(Run(rows, customerEmail, entropy, hash, services).result) == 1
  {
  }

  /**
   * Once the customer is found and the update succeeds, the one row with
   * that email gets the hash of the new key in place of whatever hash it
   * held, and no other field or row changes, whether or not the email is
   * then delivered.
   */
  lemma RekeyOverwritesOnlyHash(rows: seq<Customer>, customerEmail: string, entropy: Entropy, hash: string -> string,
                                services: Services)
    requires Lookup(rows, customerEmail, services.lookup).Some? && services.update.DbOk?
    ensures var o := Run(rows, customerEmail, entropy, hash, services);
      exists i :: OnlyRowWithEmail(rows, customerEmail, i) &&
        |o.rows| == |rows| &&
        o.rows[i] == rows[i].(apiKeyHash := hash(GenerateApiKey(entropy))) &&
        forall j :: 0 <= j < |rows| && j != i ==> o.rows[j] == rows[j]
  {
    var i :| OnlyRowWithEmail(rows, customerEmail, i);
    var o := Run(rows, customerEmail, entropy, hash, services);
    assert o.rows == SetApiKeyHash(rows, customerEmail, hash(GenerateApiKey(entropy)));
  }

  /**
   * A run that ends `Done` has emailed the new key to the customer with the
   * stored tier, or "pro" when none is stored; the stored hash is the hash
   * of the emailed key; and the printed preview is the key's first 20
   * characters, "zf_" and 17 hex digits.
   */
  lemma DoneDeliversNewKey(rows: seq<Customer>, customerEmail: string, entropy: Entropy, hash: string -> string,
                           services: Services)
    requires Run(rows, customerEmail, entropy, hash, services).result.Done?
    ensures var o := Run(rows, customerEmail, entropy, hash, services);
      var key := GenerateApiKey(entropy);
      exists i :: OnlyRowWithEmail(rows, customerEmail, i)
        && o.sent == Some(ComposeApiKeyEmail(customerEmail, key, TierOrDefault(rows[i].tier)))
        && ExitCode(o.result) == 0
        && o.result.tier == TierOrDefault(rows[i].tier)
        && (rows[i].tier == "" ==> o.result.tier == DefaultTier)
        && o.rows[i].apiKeyHash == hash(o.sent.value.apiKey)
        && o.result.keyPreview == key[..PreviewLength]
        && o.result.keyPreview[..|Prefix|] == Prefix
        && (forall j :: |Prefix| <= j < PreviewLength ==> IsLowerHex(o.result.keyPreview[j]))
  {
    var i :| OnlyRowWithEmail(rows, customerEmail, i) && rows[i] == Lookup(rows, customerEmail, services.lookup).value;
    PreviewOfGeneratedKey(entropy);
  }

  /**
   * If the email fails after the update, the old key is already invalid and
   * the new one reached nobody: the row holds the new hash and no email was
   * accepted.
   */
  lemma EmailFailureAfterRekey(rows: seq<Customer>, customerEmail: string, entropy: Entropy, hash: string -> string,
                               services: Services)
    requires Lookup(rows, customerEmail, services.lookup).Some? && services.update.DbOk? && services.send.SendFailed?
    ensures var o := Run(rows, customerEmail, entropy, hash, services);
      o.result == EmailFailed(services.send.message) && ExitCode(o.result) == 1 && o.sent.None? &&
      o.rows == SetApiKeyHash(rows, customerEmail, hash(GenerateApiKey(entropy)))
  {
  }

  /**
   * The key the script emails is in the webhook's format: the same encoder
   * of 32 bytes, so parsing it gives back exactly the bytes it was made from.
   */
  lemma EmailedKeyInWebhookFormat(rows: seq<Customer>, customerEmail: string, entropy: Entropy, hash: string -> string,
                                  services: Services)
    requires Run(rows, customerEmail, entropy, hash, services).sent.Some?
    ensures var key := Run(rows, customerEmail, entropy, hash, services).sent.value.apiKey;
      |key| == 67 && key[..|Prefix|] == Prefix && ParseApiKey(key) == Some(entropy)
  {
    ParseGenerate(entropy);
  }
}
