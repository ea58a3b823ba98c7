/**
 * The `customers` table of the managed database as the webhook and the
 * resend script see it: an ordered list of rows.  The database service is
 * not modelled; each call's success or failure is an input, and a failed
 * call changes nothing.
 */
module Customers {
  import opened Wrappers

  /** One row of `customers`; there is no column for the plaintext key. */
  datatype Customer = Customer(
    stripeCustomerId: string,
    email: string,
    apiKeyHash: string,
    tier: string,
    subscriptionStatus: string,
    createdAt: string)

  /** The `error` part of a database reply: none, or an error with a message. */
  datatype DbResult = DbOk | DbError(message: string)

  /** `.update({ subscription_status: status }).eq('stripe_customer_id', customerId)`. */
  function SetSubscriptionStatus(rows: seq<Customer>, customerId: string, status: string): (r: seq<Customer>)
    ensures |r| == |rows|
    ensures forall i :: 0 <= i < |rows| && rows[i].stripeCustomerId == customerId ==>
      r[i] == rows[i].(subscriptionStatus := status)
    ensures forall i :: 0 <= i < |rows| && rows[i].stripeCustomerId != customerId ==> r[i] == rows[i]
  {
    if rows == [] then []
    else
      var head := if rows[0].stripeCustomerId == customerId then rows[0].(subscriptionStatus := status) else rows[0];
      [head] + SetSubscriptionStatus(rows[1..], customerId, status)
  }

  /** `.update({ api_key_hash: hash }).eq('email', email)`. */
  function SetApiKeyHash(rows: seq<Customer>, email: string, hash: string): (r: seq<Customer>)
    ensures |r| == |rows|
    ensures forall i :: 0 <= i < |rows| && rows[i].email == email ==> r[i] == rows[i].(apiKeyHash := hash)
    ensures forall i :: 0 <= i < |rows| && rows[i].email != email ==> r[i] == rows[i]
  {
    if rows == [] then []
    else
      var head := if rows[0].email == email then rows[0].(apiKeyHash := hash) else rows[0];
      [head] + SetApiKeyHash(rows[1..], email, hash)
  }

  /** The position of the first row with this email, if any. */
  function FirstWithEmail(rows: seq<Customer>, email: string): (r: Option<nat>)
    ensures r.Some? ==> r.value < |rows| && rows[r.value].email == email
    ensures r.Some? ==> forall j :: 0 <= j < r.value ==> rows[j].email != email
    ensures r.None? ==> forall j :: 0 <= j < |rows| ==> rows[j].email != email
  {
    if rows == [] then None
    else if rows[0].email == email then Some(0)
    else match FirstWithEmail(rows[1..], email)
      case None => None
      case Some(k) => Some(k + 1)
  }

  /** Row `i` is the one and only row with this email. */
  ghost predicate OnlyRowWithEmail(rows: seq<Customer>, email: string, i: int) {
    0 <= i < |rows| && rows[i].email == email &&
    forall j :: 0 <= j < |rows| && rows[j].email == email ==> j == i
  }

  /**
   * `.select('*').eq('email', email).single()`: the row when exactly one row
   * has the email; none when no row or several rows have it.
   */
  function SelectSingleByEmail(rows: seq<Customer>, email: string): (r: Option<Customer>)
    ensures r.Some? <==> exists i :: OnlyRowWithEmail(rows, email, i)
    ensures r.Some? ==> exists i :: OnlyRowWithEmail(rows, email, i) && rows[i] == r.value
  {
    match FirstWithEmail(rows, email)
    case None => None
    case Some(i) =>
      match FirstWithEmail(rows[i + 1..], email)
      case None =>
        assert forall j :: i < j < |rows| ==> rows[j].email != email by {
          forall j | i < j < |rows| ensures rows[j].email != email {
            assert rows[i + 1..][j - i - 1] == rows[j];
          }
        }
        assert OnlyRowWithEmail(rows, email, i);
        Some(rows[i])
      case Some(k) =>
        assert rows[i + 1 + k] == rows[i + 1..][k];
        assert !OnlyRowWithEmail(rows, email, i) && !OnlyRowWithEmail(rows, email, i + 1 + k);
        None
  }

  /**
   * The `customers` table behind the database client.  Each method is one
   * client call; its outcome is given, and only a successful call changes
   * the rows.
   */
  class CustomerTable {
    var rows: seq<Customer>

    constructor (initial: seq<Customer>)
      ensures rows == initial
    {
      rows := initial;
    }

    /** `.insert(record).select().single()`. */
    method Insert(record: Customer, outcome: DbResult) returns (error: Option<string>)
      modifies this
      ensures error == if outcome.DbOk? then None else Some(outcome.message)
      ensures rows == if outcome.DbOk? then old(rows) + [record] else old(rows)
    {
      if outcome.DbError? {
        return Some(outcome.message);
      }
      rows := rows + [record];
      return None;
    }

    /** `.update({ subscription_status: status }).eq('stripe_customer_id', customerId)`. */
    method UpdateSubscriptionStatus(customerId: string, status: string, outcome: DbResult) returns (error: Option<string>)
      modifies this
      ensures error == if outcome.DbOk? then None else Some(outcome.message)
      ensures rows == if outcome.DbOk? then SetSubscriptionStatus(old(rows), customerId, status) else old(rows)
    {
      if outcome.DbError? {
        return Some(outcome.message);
      }
      rows := SetSubscriptionStatus(rows, customerId, status);
      return None;
    }

    /** `.update({ api_key_hash: hash }).eq('email', email)`. */
    method UpdateApiKeyHash(email: string, hash: string, outcome: DbResult) returns (error: Option<string>)
      modifies this
      ensures error == if outcome.DbOk? then None else Some(outcome.message)
      ensures rows == if outcome.DbOk? then SetApiKeyHash(old(rows), email, hash) else old(rows)
    {
      if outcome.DbError? {
        return Some(outcome.message);
      }
      rows := SetApiKeyHash(rows, email, hash);
      return None;
    }

    /** `.select('*').eq('email', email).single()`; a failed call finds nothing. */
    method SelectSingle(email: string, outcome: DbResult) returns (customer: Option<Customer>)
      ensures customer == if outcome.DbOk? then SelectSingleByEmail(rows, email) else None
    {
      if outcome.DbError? {
        return None;
      }
      return SelectSingleByEmail(rows, email);
    }
  }
}
