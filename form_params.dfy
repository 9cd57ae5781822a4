/**
 * The parameter map of a Be2bill form and the fixed recipe that turns a
 * caller's arguments into it: place the amount, then overwrite the six
 * process fields, then add the HASH field.
 */
module FormParams {

  /** A parameter value. The client stores strings, integers, the
      date-to-cents array of an N-time payment, and null, which PHP's
      `isset` treats as an absent key. */
  datatype Value =
    | Null
    | Str(s: string)
    | Int(i: int)
    | Amounts(installments: map<string, int>)

  /** A PHP parameter array, keyed by parameter name. */
  type Params = map<string, Value>

  const AMOUNT := "AMOUNT"
  const AMOUNTS := "AMOUNTS"
  const IDENTIFIER := "IDENTIFIER"
  const OPERATIONTYPE := "OPERATIONTYPE"
  const ORDERID := "ORDERID"
  const CLIENTIDENT := "CLIENTIDENT"
  const DESCRIPTION := "DESCRIPTION"
  const VERSION := "VERSION"
  const HASH := "HASH"

  /** The keys the process step writes over whatever the caller passed. */
  const ProcessKeys: set<string> :=
    {IDENTIFIER, OPERATIONTYPE, ORDERID, CLIENTIDENT, DESCRIPTION, VERSION}

  /** PHP's `is_array` on an amount: only an N-time schedule is an array. */
  predicate IsArray(amount: Value) {
    amount.Amounts?
  }

  /** True when `p` has the same entry as `q` at key `k`, or neither has one. */
  predicate SameAt(p: Params, q: Params, k: string) {
    (k in p <==> k in q) && (k in p ==> p[k] == q[k])
  }

  /** The caller's options with a payment amount placed: an array goes under
      AMOUNTS (an N-time payment), anything else under AMOUNT. */
  function PaymentOptions(amount: Value, options: Params): (p: Params)
    ensures IsArray(amount) ==> AMOUNTS in p && p[AMOUNTS] == amount
    ensures !IsArray(amount) ==> AMOUNT in p && p[AMOUNT] == amount
    ensures IsArray(amount) ==> SameAt(p, options, AMOUNT)
    ensures !IsArray(amount) ==> SameAt(p, options, AMOUNTS)
    ensures forall k :: k != AMOUNT && k != AMOUNTS ==> SameAt(p, options, k)
  {
    if IsArray(amount) then options[AMOUNTS := amount] else options[AMOUNT := amount]
  }

  /** The caller's options with an authorization amount placed: always under
      AMOUNT, whether or not it is an array. */
  function AuthorizationOptions(amount: Value, options: Params): (p: Params)
    ensures AMOUNT in p && p[AMOUNT] == amount
    ensures forall k :: k != AMOUNT ==> SameAt(p, options, k)
  {
    options[AMOUNT := amount]
  }

  /** The map that is hashed: the options, overwritten on the six process
      keys by the stored identifier, the operation type, the order id, the
      client identifier, the description and the chosen version. */
  function Assemble(
    options: Params,
    identifier: string,
    operationType: string,
    orderId: string,
    clientIdentifier: string,
    description: string,
    version: Value
  ): (m: Params)
    ensures m.Keys == options.Keys + ProcessKeys
    ensures m[IDENTIFIER] == Str(identifier)
    ensures m[OPERATIONTYPE] == Str(operationType)
    ensures m[ORDERID] == Str(orderId)
    ensures m[CLIENTIDENT] == Str(clientIdentifier)
    ensures m[DESCRIPTION] == Str(description)
    ensures m[VERSION] == version
    ensures forall k :: k !in ProcessKeys ==> SameAt(m, options, k)
  {
    options[IDENTIFIER := Str(identifier)]
           [OPERATIONTYPE := Str(operationType)]
           [ORDERID := Str(orderId)]
           [CLIENTIDENT := Str(clientIdentifier)]
           [DESCRIPTION := Str(description)]
           [VERSION := version]
  }

  /** The map handed to the renderer: the hashed map plus its HASH. */
  function WithHash(m: Params, hash: string): (s: Params)
    ensures s.Keys == m.Keys + {HASH}
    ensures s[HASH] == Str(hash)
    ensures forall k :: k != HASH ==> SameAt(s, m, k)
  {
    m[HASH := Str(hash)]
  }

  /** The process fields as one map, written independently of the step-by-step
      assignments. */
  function ProcessFields(
    identifier: string,
    operationType: string,
    orderId: string,
    clientIdentifier: string,
    description: string,
    version: Value
  ): map<string, Value>
  {
    map[IDENTIFIER := Str(identifier), OPERATIONTYPE := Str(operationType),
        ORDERID := Str(orderId), CLIENTIDENT := Str(clientIdentifier),
        DESCRIPTION := Str(description), VERSION := version]
  }

  /** Assembling is a right-biased merge: the caller's options lose to the
      process fields on every key both have, and keep every other key. */
  lemma AssembleIsMerge(
    options: Params, identifier: string, operationType: string, orderId: string,
    clientIdentifier: string, description: string, version: Value)
    ensures Assemble(options, identifier, operationType, orderId, clientIdentifier, description, version)
         == options + ProcessFields(identifier, operationType, orderId, clientIdentifier, description, version)
  {
  }

  /** Which keys win: a caller's option on a process key never reaches the
      hashed map. Two option maps that agree off the process keys assemble to
      the same map (the version is passed separately, and is the one place a
      caller's VERSION can have an effect). */
  lemma CallerCannotOverrideProcessKeys(
    o1: Params, o2: Params, identifier: string, operationType: string, orderId: string,
    clientIdentifier: string, description: string, version: Value)
    requires forall k :: k !in ProcessKeys ==> SameAt(o1, o2, k)
    ensures Assemble(o1, identifier, operationType, orderId, clientIdentifier, description, version)
         == Assemble(o2, identifier, operationType, orderId, clientIdentifier, description, version)
  {
    var m1 := Assemble(o1, identifier, operationType, orderId, clientIdentifier, description, version);
    var m2 := Assemble(o2, identifier, operationType, orderId, clientIdentifier, description, version);
    forall k
      ensures SameAt(m1, m2, k)
    {
      if k !in ProcessKeys {
        assert SameAt(m1, o1, k) && SameAt(o1, o2, k) && SameAt(m2, o2, k);
      }
    }
    assert m1.Keys == m2.Keys;
    forall k | k in m1
      ensures m1[k] == m2[k]
    {
      assert SameAt(m1, m2, k);
    }
  }

  /** A scalar payment assembles to exactly what an authorization of the same
      amount assembles to, except for the operation type. */
  lemma ScalarPaymentIsAuthorizationButType(
    amount: Value, options: Params, identifier: string, orderId: string,
    clientIdentifier: string, description: string, version: Value)
    requires !IsArray(amount)
    ensures Assemble(PaymentOptions(amount, options), identifier, "payment", orderId, clientIdentifier, description, version)
         == Assemble(AuthorizationOptions(amount, options), identifier, "authorization", orderId, clientIdentifier, description, version)
              [OPERATIONTYPE := Str("payment")]
  {
  }

  /** What a payment form carries: the process fields, the HASH, the amount
      under AMOUNTS for an N-time array (leaving whatever the caller had under
      AMOUNT) or under AMOUNT otherwise (leaving the caller's AMOUNTS), and
      every other caller option unchanged, a caller HASH included only in the
      map that was hashed. */
  lemma PaymentFormFields(
    amount: Value, options: Params, identifier: string, orderId: string,
    clientIdentifier: string, description: string, version: Value, hash: string)
    ensures
      var m := Assemble(PaymentOptions(amount, options), identifier, "payment", orderId,
                        clientIdentifier, description, version);
      var s := WithHash(m, hash);
      && s.Keys == options.Keys + ProcessKeys + {HASH, if IsArray(amount) then AMOUNTS else AMOUNT}
      && s[OPERATIONTYPE] == Str("payment") && s[IDENTIFIER] == Str(identifier)
      && s[ORDERID] == Str(orderId) && s[CLIENTIDENT] == Str(clientIdentifier)
      && s[DESCRIPTION] == Str(description) && s[VERSION] == version
      && s[HASH] == Str(hash)
      && (HASH in options ==> m[HASH] == options[HASH])
      && (IsArray(amount) ==> s[AMOUNTS] == amount && SameAt(s, options, AMOUNT))
      && (!IsArray(amount) ==> s[AMOUNT] == amount && SameAt(s, options, AMOUNTS))
      && (forall k :: k !in ProcessKeys && k != AMOUNT && k != AMOUNTS && k != HASH ==> SameAt(s, options, k))
  {
  }

  /** What an authorization form carries: the process fields, the HASH, the
      amount under AMOUNT whatever its shape, and every other caller option
      (AMOUNTS included) unchanged. */
  lemma AuthorizationFormFields(
    amount: Value, options: Params, identifier: string, orderId: string,
    clientIdentifier: string, description: string, version: Value, hash: string)
    ensures
      var m := Assemble(AuthorizationOptions(amount, options), identifier, "authorization", orderId,
                        clientIdentifier, description, version);
      var s := WithHash(m, hash);
      && s.Keys == options.Keys + ProcessKeys + {HASH, AMOUNT}
      && s[OPERATIONTYPE] == Str("authorization") && s[IDENTIFIER] == Str(identifier)
      && s[ORDERID] == Str(orderId) && s[CLIENTIDENT] == Str(clientIdentifier)
      && s[DESCRIPTION] == Str(description) && s[VERSION] == version
      && s[HASH] == Str(hash) && s[AMOUNT] == amount
      && (HASH in options ==> m[HASH] == options[HASH])
      && (forall k :: k !in ProcessKeys && k != AMOUNT && k != HASH ==> SameAt(s, options, k))
  {
  }
}
