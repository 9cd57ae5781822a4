/**
 * The form client: it holds the merchant credentials, the default API
 * version and its two collaborators, and builds signed payment and
 * authorization forms from the recipe in FormParams.
 */
module FormApi {
  import opened FormParams

  /** HTML attributes for the form and its submit control, keyed by the
      element they go on ("FORM", "SUBMIT"). Only the renderer reads them. */
  type HtmlOptions = map<string, map<string, string>>

  /** A hasher, seen only through what it computes: the signature of a
      parameter map under a secret, and whether a received map carries a
      valid signature. Its algorithm is not part of this model. */
  datatype Hasher = Hasher(
    compute: (string, Params) -> string,
    checkHash: (string, Params) -> bool)

  /** A renderer, seen only through the markup it produces for a parameter
      map and the HTML options. */
  datatype Renderer = Renderer(render: (Params, HtmlOptions) -> string)

  /** The API version a new client sends when the caller gives none. */
  const DefaultVersion := "2.0"

  /** A hasher whose signature ignores any HASH already in the map. */
  ghost predicate SigningIgnoresHash(h: Hasher) {
    forall secret, p :: h.compute(secret, p) == h.compute(secret, p - {HASH})
  }

  /** A hasher whose check recomputes the signature of the map without its
      HASH and compares it with the HASH received. */
  ghost predicate CheckingRecomputes(h: Hasher) {
    forall secret, p :: h.checkHash(secret, p)
                     == (HASH in p && p[HASH] == Str(h.compute(secret, p - {HASH})))
  }

  class FormClient {
    var version: string
    var identifier: string
    var password: string
    var renderer: Renderer
    var hasher: Hasher

    /** A client with the given credentials and collaborators and the
        default version. */
    constructor (identifier: string, password: string, renderer: Renderer, hasher: Hasher)
      ensures this.identifier == identifier && this.password == password
      ensures this.version == DefaultVersion
      ensures this.renderer == renderer && this.hasher == hasher
    {
      this.version := DefaultVersion;
      this.renderer := renderer;
      this.hasher := hasher;
      new;
      SetCredentials(identifier, password);
    }

    /** Replaces the credentials; nothing else changes. */
    method SetCredentials(identifier: string, password: string)
      modifies this`identifier, this`password
      ensures this.identifier == identifier && this.password == password
      ensures version == old(version) && renderer == old(renderer) && hasher == old(hasher)
    {
      this.identifier := identifier;
      this.password := password;
    }

    /** Replaces the default version; nothing else changes. */
    method SetVersion(version: string)
      modifies this`version
      ensures this.version == version
      ensures identifier == old(identifier) && password == old(password)
      ensures renderer == old(renderer) && hasher == old(hasher)
    {
      this.version := version;
    }

    /** The VERSION to send: the caller's, when the options set it to a
        non-null value, and otherwise the client's default. Either way the
        result is never null. */
    function GetVersion(options: Params): (v: Value)
      reads this
      ensures v != Null
      ensures VERSION in options && options[VERSION] != Null ==> v == options[VERSION]
      ensures VERSION !in options || options[VERSION] == Null ==> v == Str(version)
    {
      if VERSION in options && options[VERSION] != Null then options[VERSION] else Str(version)
    }

    /** Signs a parameter map with the stored password. */
    method Hash(params: Params) returns (h: string)
      ensures h == hasher.compute(password, params)
    {
      h := hasher.compute(password, params);
    }

    /** Checks a received parameter map against the stored password. */
    method CheckHash(params: Params) returns (ok: bool)
      ensures ok == hasher.checkHash(password, params)
    {
      ok := hasher.checkHash(password, params);
    }

    /** Assembles the process fields over the options, signs the result and
        renders it. The renderer sees exactly the assembled map plus its
        HASH, and the caller's HTML options unchanged. */
    method BuildProcessButton(
      operationType: string,
      orderId: string,
      clientIdentifier: string,
      description: string,
      htmlOptions: HtmlOptions,
      options: Params
    ) returns (html: string)
      ensures
        var m := Assemble(options, identifier, operationType, orderId, clientIdentifier,
                          description, GetVersion(options));
        html == renderer.render(WithHash(m, hasher.compute(password, m)), htmlOptions)
    {
      var params := options;
      params := params[IDENTIFIER := Str(identifier)];
      params := params[OPERATIONTYPE := Str(operationType)];
      params := params[ORDERID := Str(orderId)];
      params := params[CLIENTIDENT := Str(clientIdentifier)];
      params := params[DESCRIPTION := Str(description)];
      params := params[VERSION := GetVersion(options)];
      var h := Hash(params);
      params := params[HASH := Str(h)];
      html := renderer.render(params, htmlOptions);
    }

    /** Builds an authorization form: the amount goes under AMOUNT, even
        when it is an N-time array, and the operation type is
        "authorization". */
    method BuildAuthorizationFormButton(
      amount: Value,
      orderId: string,
      clientIdentifier: string,
      description: string,
      htmlOptions: HtmlOptions,
      options: Params
    ) returns (html: string)
      ensures
        var m := Assemble(AuthorizationOptions(amount, options), identifier, "authorization",
                          orderId, clientIdentifier, description, GetVersion(options));
        html == renderer.render(WithHash(m, hasher.compute(password, m)), htmlOptions)
    {
      var params := options;
      params := params[AMOUNT := amount];
      html := BuildProcessButton("authorization", orderId, clientIdentifier, description, htmlOptions, params);
    }

    /** Builds a payment form: an N-time array goes under AMOUNTS, any other
        amount under AMOUNT, and the operation type is "payment". */
    method BuildPaymentFormButton(
      amount: Value,
      orderId: string,
      clientIdentifier: string,
      description: string,
      htmlOptions: HtmlOptions,
      options: Params
    ) returns (html: string)
      ensures
        var m := Assemble(PaymentOptions(amount, options), identifier, "payment",
                          orderId, clientIdentifier, description, GetVersion(options));
        html == renderer.render(WithHash(m, hasher.compute(password, m)), htmlOptions)
    {
      var params := options;
      if IsArray(amount) {
        params := params[AMOUNTS := amount];
      } else {
        params := params[AMOUNT := amount];
      }
      html := BuildProcessButton("payment", orderId, clientIdentifier, description, htmlOptions, params);
    }
  }

  /** The map a client renders passes that client's own check, for a hasher
      that signs without the HASH key and checks by recomputing: a HASH the
      caller left in the options is part of the signed map, but replacing it
      leaves the rest of the map, and so the signature, as it was. */
  lemma BuiltFormPassesCheck(
    c: FormClient, operationType: string, orderId: string, clientIdentifier: string,
    description: string, options: Params)
    requires SigningIgnoresHash(c.hasher) && CheckingRecomputes(c.hasher)
    ensures
      var m := Assemble(options, c.identifier, operationType, orderId, clientIdentifier,
                        description, c.GetVersion(options));
      c.hasher.checkHash(c.password, WithHash(m, c.hasher.compute(c.password, m)))
  {
    var m := Assemble(options, c.identifier, operationType, orderId, clientIdentifier,
                      description, c.GetVersion(options));
    var signed := WithHash(m, c.hasher.compute(c.password, m));
    assert signed - {HASH} == m - {HASH};
    assert c.hasher.compute(c.password, m) == c.hasher.compute(c.password, m - {HASH});
  }
}
