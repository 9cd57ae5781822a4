# Be2bill form client, modelled in Dafny

This project models the parameter-assembly core of the Be2bill PHP merchant
API's form client (`Be2bill_Api_FormClient`). The client holds a merchant
identifier, a password (the shared secret used only for signing) and a
default API version, which starts at `"2.0"`. It builds the hidden-field
parameter map of a payment or authorization form by a fixed recipe:

1. start from the caller's options;
2. put the amount under `AMOUNT`, or, for an N-time payment given as an
   array, under `AMOUNTS`;
3. overwrite `IDENTIFIER`, `OPERATIONTYPE`, `ORDERID`, `CLIENTIDENT`,
   `DESCRIPTION` and `VERSION`, where `VERSION` is the caller's when the
   options set it to a non-null value and the client's default otherwise;
4. sign that map with the hasher under the password and store the result
   under `HASH`;
5. give the signed map and the caller's HTML options to the renderer and
   return its markup.

It also passes parameter maps straight to the hasher, to sign them (`hash`)
or to check a signature received from the gateway (`checkHash`).

Files:

- `form_params.dfy`, module `FormParams`: parameter values
  (`Null | Str | Int | Amounts`), the parameter names, the amount placement
  of each operation, the assembly of the process fields, the adding of
  `HASH`, and lemmas about which keys win and which pass through.
- `form_client.dfy`, module `FormApi`: the hasher and renderer as values that
  hold uninterpreted functions, and the class `FormClient`. Its fields are the
  ones the PHP object holds. The setters update them in place. The build
  methods assign parameter keys one after another, as the source does, and
  are proved equal to the `FormParams` recipe.

The hasher and the renderer are interfaces whose implementations are not
part of this model. Each is a datatype that holds total functions
(`compute`, `checkHash`, `render`). The constructor stores them, and every
property here holds whatever those functions do. The one property that
depends on them, that a client's own forms pass its own check, takes as its
hypotheses that the hasher signs a map without its HASH key and checks a map
by recomputing that signature.

An authorization given an array amount is not rejected: the code stores it
under `AMOUNT` like any other amount
(`src/Be2bill/Api/FormClient.php:121-123`), and the model does the same.

## Model

| member | source | states |
|---|---|---|
| `FormParams.PaymentOptions` | src/Be2bill/Api/FormClient.php:173-180 | an array amount lands under AMOUNTS and the caller's AMOUNT is left as it was; any other amount lands under AMOUNT and the caller's AMOUNTS is left as it was; every other option is unchanged |
| `FormParams.AuthorizationOptions` | src/Be2bill/Api/FormClient.php:121-123 | the amount lands under AMOUNT whatever its shape, and every other option (AMOUNTS included) is unchanged |
| `FormParams.Assemble` | src/Be2bill/Api/FormClient.php:228-235 | the hashed map has exactly the caller's keys plus the six process keys; each process key holds the value the client supplies, whatever the caller passed under it; every other key keeps the caller's entry |
| `FormParams.WithHash` | src/Be2bill/Api/FormClient.php:237 | the rendered map is the hashed map with HASH set to the signature; any HASH the caller passed is replaced, and no other key changes |
| `FormParams.AssembleIsMerge` | src/Be2bill/Api/FormClient.php:228-235 | the six assignments in a row equal a merge of the options with the map of process fields, in which the process fields win |
| `FormParams.CallerCannotOverrideProcessKeys` | src/Be2bill/Api/FormClient.php:228-235 | two option maps that agree everywhere except on the process keys assemble to the same map, for a fixed version: a caller's IDENTIFIER, OPERATIONTYPE, ORDERID, CLIENTIDENT or DESCRIPTION never reaches the hash, and a caller's VERSION reaches it only through GetVersion |
| `FormParams.ScalarPaymentIsAuthorizationButType` | src/Be2bill/Api/FormClient.php:121-182 | for a non-array amount, the payment map and the authorization map differ only in OPERATIONTYPE |
| `FormParams.PaymentFormFields` | src/Be2bill/Api/FormClient.php:173-182 | the map a payment renders: its key set, OPERATIONTYPE "payment", the other process fields, HASH, the amount under AMOUNTS or AMOUNT by shape, and every other caller key unchanged; a caller HASH is in the hashed map |
| `FormParams.AuthorizationFormFields` | src/Be2bill/Api/FormClient.php:121-132 | the map an authorization renders: its key set, OPERATIONTYPE "authorization", the other process fields, HASH, the amount under AMOUNT, and every other caller key unchanged; a caller HASH is in the hashed map |
| `FormApi.FormClient.constructor` | src/Be2bill/Api/FormClient.php:18-61 | a new client holds the given identifier, password, renderer and hasher, and version "2.0" |
| `FormApi.FormClient.SetCredentials` | src/Be2bill/Api/FormClient.php:69-73 | identifier and password take the given values; version, renderer and hasher are unchanged |
| `FormApi.FormClient.SetVersion` | src/Be2bill/Api/FormClient.php:80-83 | version takes the given value; credentials, renderer and hasher are unchanged |
| `FormApi.FormClient.GetVersion` | src/Be2bill/Api/FormClient.php:250-257 | the caller's VERSION when present and not null, otherwise the client's version; never null |
| `FormApi.FormClient.Hash` | src/Be2bill/Api/FormClient.php:191-194 | the hasher's signature of the given map under the stored password, with no state change |
| `FormApi.FormClient.CheckHash` | src/Be2bill/Api/FormClient.php:202-205 | the hasher's verdict on the given map under the stored password, with no state change |
| `FormApi.FormClient.BuildProcessButton` | src/Be2bill/Api/FormClient.php:220-242 | the markup is the renderer's output for exactly the assembled map plus its HASH (the signature of that assembled map under the password) and the caller's HTML options |
| `FormApi.FormClient.BuildAuthorizationFormButton` | src/Be2bill/Api/FormClient.php:113-133 | the markup is that of the process step with operation type "authorization" over the options with the amount under AMOUNT, and VERSION chosen from the caller's options |
| `FormApi.FormClient.BuildPaymentFormButton` | src/Be2bill/Api/FormClient.php:165-183 | the markup is that of the process step with operation type "payment" over the options with the amount placed by its shape, and VERSION chosen from the caller's options |
| `FormApi.BuiltFormPassesCheck` | src/Be2bill/Api/FormClient.php:191-241 | for a hasher that signs without the HASH key and checks by recomputing, the map a client renders passes that client's own check, even when the caller's options held a stale HASH |

## Left out

- The hasher's algorithm (canonical key order, delimiter, digest) and the
  renderer's markup and escaping: their implementations are not part of this
  model, so they are uninterpreted functions.
- Key order: a PHP array keeps insertion order, and a key that is assigned
  again keeps its first position. Dafny maps have no order, so the model
  assumes the hasher and the renderer do not depend on it.
- PHP's loose typing: values are strings, integers, date-to-cents arrays or
  null. Other PHP values (booleans, floats, nested arrays of other shapes)
  are not modelled. PHP's conversion of numeric-string keys to integer keys
  is not modelled either: keys are strings. The one loose-typing rule kept is
  `isset`, which treats a null VERSION as absent.
- PHP's default arguments (every defaulted parameter, all of them empty
  arrays: `htmlOptions` and `options` of the three build methods, `params`
  of `hash`, `options` of `getVersion`): every argument is explicit in the
  model.
- `Be2bill_Api_ClientBuilder` and the sandbox and production endpoints:
  configuration wiring, not part of this model.
- `tests/ftests/FormClientTest.php`: it scrapes the rendered HTML and posts
  it to the live sandbox, which is network I/O.
