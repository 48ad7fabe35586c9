/**
 * The `canvas-app` Passport strategy: it authenticates a POST whose body
 * carries a `signed_request` of the form `<signature>.<base64 JSON payload>`,
 * checks the signature with the consumer secret, loads the user's profile
 * with the payload's access token (the replay defence), asks the
 * application's verify callback for a user, and on success merges the
 * payload's `context.environment` into the request body.
 *
 * The asynchronous pipeline is modelled by pure functions over `Promise`
 * (fulfilled, rejected, or never settled); the strategy object and the
 * request whose body is updated in place are classes.
 */
module CanvasApp {
  import opened JsString
  import opened JsValue

  /** The strategy's registered name. */
  const StrategyName := "canvas-app"

  /** The only status the strategy ever fails with. */
  const Forbidden := 403

  /** The message used when the verify callback neither authorizes nor explains. */
  const DefaultDenial := "Not an authorized user"

  /** What made a promise of the pipeline reject: the step that threw or rejected.
      Callback and transport messages are kept as they reach `fail`; the text
      Node generates for its own assertion and type errors is summarised by the tag. */
  datatype Reason =
    | NotSplittable                                 // `signed_request` is truthy but not a string
    | PartCount(count: nat)                         // the split did not give exactly two parts
    | NoSecret                                      // the configured consumer secret is falsy
    | SignatureMismatch(actual: string, expected: string)
    | BadPayload                                    // JSON.parse threw on the decoded payload
    | CannotRead(key: string)                       // a property read on null or undefined
    | Transport(message: string)                    // the profile request failed in transport
    | CallbackThrew(message: string)                // the verify callback threw
    | CallbackError(message: string)                // the verify callback passed an error
    | NotAuthorized(message: string)                // no user: the callback's info or the default

  /** The state a promise ends in: `Pending` is a promise that never settles. */
  datatype Promise<+T> = Fulfilled(value: T) | Rejected(reason: Reason) | Pending

  /** How the application's verify callback answers `(accessToken, profile)`:
      it calls `done(error, user, info)` (an error present is an Error object,
      given by its message; an info present is a string), throws, or never calls `done`. */
  datatype Verdict =
    | Done(error: Option<string>, user: Value, info: Option<string>)
    | Threw(message: string)
    | Silent

  type Callback = (Value, Value) -> Verdict

  /** What the identity lookup's HTTP request reports: a transport error, a
      response, or nothing at all (the request sets no timeout, so its callback
      may never run). */
  datatype LookupResult = TransportError(message: string) | Response(status: int, body: Value) | NoAnswer

  /** The three payload values the identity lookup is addressed and authorized by. */
  datatype ProfileQuery = ProfileQuery(organizationId: Value, userId: Value, accessToken: Value)

  /** The collaborators outside this model: HMAC-SHA256 with its digest in base64
      (keyed by the first argument), Node's lenient base64 decoding, JSON.parse
      (None when it throws), and the identity lookup over the network. */
  datatype Platform = Platform(
    hmac: (string, string) -> string,
    base64Decode: string -> string,
    parseJson: string -> Option<Value>,
    lookup: ProfileQuery -> LookupResult)

  /** What `_verifyUser` resolves to: the user and the entries for the request body. */
  datatype Grant = Grant(user: Value, environment: Value)

  /** Which of Passport's `success`, `pass` and `fail` the strategy calls, or
      `Stuck` when the pipeline's promise never settles and none is called. */
  datatype Outcome = Success(user: Value) | Pass | Fail(status: int, reason: Reason) | Stuck

  /** `signatureFor`: the base64 HMAC-SHA256 of the encoded payload under the secret. */
  function SignatureFor(encoded: string, secret: string, p: Platform): string {
    p.hmac(secret, encoded)
  }

  /** `decodeEnvelope`: base64-decode the payload, then parse it as JSON. */
  function DecodeEnvelope(encoded: string, p: Platform): Completion<Value, Reason> {
    match p.parseJson(p.base64Decode(encoded))
    case Some(data) => Normal(data)
    case None => Throw(BadPayload)
  }

  /** A property read `v.key`, which throws on null and undefined. */
  function Read(v: Value, key: string): (r: Completion<Value, Reason>)
    ensures r.Throw? <==> Nullish(v)
    ensures r.Throw? ==> r.error == CannotRead(key)
    ensures r.Normal? ==> r.value == Get(v, key)
  {
    if Nullish(v) then Throw(CannotRead(key)) else Normal(Get(v, key))
  }

  /** The reads at the start of `loadUserProfile`, in order: `context.user.userId`,
      `context.organization.organizationId`, `client.oauthToken`. They throw when
      the payload, its `context`, `context.user`, `context.organization` or `client`
      is null or undefined; a missing leaf is passed on as `undefined`. */
  function ReadQuery(data: Value): (r: Completion<ProfileQuery, Reason>)
    ensures r.Normal? <==>
      !Nullish(data) && !Nullish(Get(data, "context")) && !Nullish(Get(data, "client")) &&
      !Nullish(Get(Get(data, "context"), "user")) && !Nullish(Get(Get(data, "context"), "organization"))
    ensures r.Normal? ==> r.value == ProfileQuery(
      Get(Get(Get(data, "context"), "organization"), "organizationId"),
      Get(Get(Get(data, "context"), "user"), "userId"),
      Get(Get(data, "client"), "oauthToken"))
    ensures r.Throw? ==> r.error.CannotRead?
  {
    var context :- Read(data, "context");
    var user :- Read(context, "user");
    var userId :- Read(user, "userId");
    // `data` and `data.context` were read above, so reading from them again cannot throw
    var organization := Get(context, "organization");
    var organizationId :- Read(organization, "organizationId");
    var client := Get(data, "client");
    var accessToken :- Read(client, "oauthToken");
    Normal(ProfileQuery(organizationId, userId, accessToken))
  }

  /** `data.client.oauthToken`, as read again by `_verifyAsync`. */
  function AccessToken(data: Value): Completion<Value, Reason> {
    var client :- Read(data, "client");
    Read(client, "oauthToken")
  }

  /** `loadUserProfile`: one identity lookup for the payload's query. A transport
      error rejects; a 200 response resolves to its body; any other status fails
      an assertion inside the HTTP callback, outside the promise, which then never
      settles; a request that is never answered leaves it unsettled too. */
  function LoadUserProfile(data: Value, p: Platform): (r: Promise<Value>)
    ensures r.Fulfilled? ==> ReadQuery(data).Normal? && p.lookup(ReadQuery(data).value) == Response(200, r.value)
    ensures r.Pending? <==> (ReadQuery(data).Normal? &&
      (p.lookup(ReadQuery(data).value).NoAnswer? ||
       (p.lookup(ReadQuery(data).value).Response? && p.lookup(ReadQuery(data).value).status != 200)))
    ensures ReadQuery(data).Normal? && p.lookup(ReadQuery(data).value).TransportError? ==>
      r == Rejected(Transport(p.lookup(ReadQuery(data).value).message))
  {
    match ReadQuery(data)
    case Throw(e) => Rejected(e)
    case Normal(query) =>
      match p.lookup(query)
      case TransportError(message) => Rejected(Transport(message))
      case Response(status, body) => if status == 200 then Fulfilled(body) else Pending
      case NoAnswer => Pending
  }

  /** `_verifyAsync`: ask the verify callback about the payload's access token
      and the loaded profile, and turn its tri-state answer into a promise. */
  function VerifyAsync(data: Value, profile: Value, verify: Callback): (r: Promise<Value>)
    ensures r.Fulfilled? ==> Truthy(r.value)
    ensures AccessToken(data).Normal? ==>
      var answer := verify(AccessToken(data).value, profile);
      && (answer.Done? && Truthy(answer.user) ==> r == Fulfilled(answer.user))
      && (answer.Done? && !Truthy(answer.user) && answer.error.Some? ==> r == Rejected(CallbackError(answer.error.value)))
      && (answer.Done? && !Truthy(answer.user) && answer.error.None? ==> r.Rejected? && r.reason.NotAuthorized?)
      && (answer.Threw? ==> r == Rejected(CallbackThrew(answer.message)))
      && (answer.Silent? <==> r.Pending?)
  {
    match AccessToken(data)
    case Throw(e) => Rejected(e)
    case Normal(accessToken) =>
      match verify(accessToken, profile)
      case Silent => Pending
      case Threw(message) => Rejected(CallbackThrew(message))
      case Done(error, user, info) =>
        if Truthy(user) then Fulfilled(user)
        else if error.Some? then Rejected(CallbackError(error.value))
        else Rejected(NotAuthorized(if info.Some? && info.value != "" then info.value else DefaultDenial))
  }

  /** `_verifyUser`: decode the payload, load the profile, verify the user, and
      resolve to the user with the payload's `context.environment`. */
  function VerifyUser(encoded: string, verify: Callback, p: Platform): (r: Promise<Grant>)
    ensures r.Fulfilled? ==> Truthy(r.value.user)
  {
    match DecodeEnvelope(encoded, p)
    case Throw(e) => Rejected(e)
    case Normal(data) =>
      match LoadUserProfile(data, p)
      case Rejected(e) => Rejected(e)
      case Pending => Pending
      case Fulfilled(profile) =>
        match VerifyAsync(data, profile, verify)
        case Rejected(e) => Rejected(e)
        case Pending => Pending
        case Fulfilled(user) =>
          match Read(data, "context")
          case Throw(e) => Rejected(e)
          case Normal(context) =>
            match Read(context, "environment")
            case Throw(e) => Rejected(e)
            case Normal(environment) => Fulfilled(Grant(user, environment))
  }

  /** The body's `signed_request` entry, or `undefined`. */
  function SignedRequest(body: map<string, Value>): Value {
    if "signed_request" in body then body["signed_request"] else Undefined
  }

  /** Whether the strategy applies: a POST whose `signed_request` is truthy. */
  predicate Applicable(httpMethod: string, body: map<string, Value>) {
    httpMethod == "POST" && Truthy(SignedRequest(body))
  }

  /** `_verifySignature`: nothing for a request the strategy does not apply to;
      otherwise split the signed request, compare its signature with the one the
      secret gives for its payload, and go on to `_verifyUser`. */
  function VerifySignature(httpMethod: string, body: map<string, Value>, secret: string, verify: Callback, p: Platform)
    : (r: Promise<Option<Grant>>)
    ensures r == Fulfilled(None) <==> !Applicable(httpMethod, body)
    ensures r.Fulfilled? && r.value.Some? ==> Truthy(r.value.value.user)
  {
    var signedRequest := SignedRequest(body);
    if httpMethod == "POST" && Truthy(signedRequest) then
      if !signedRequest.Str? then Rejected(NotSplittable)
      else
        var parts := Split(signedRequest.s, '.');
        if |parts| != 2 then Rejected(PartCount(|parts|))
        else
          var actualSignature := parts[0];
          var encoded := parts[1];
          if secret == "" then Rejected(NoSecret)
          else
            var expectedSignature := SignatureFor(encoded, secret, p);
            if actualSignature != expectedSignature then Rejected(SignatureMismatch(actualSignature, expectedSignature))
            else SomeGrant(VerifyUser(encoded, verify, p))
    else Fulfilled(None)
  }

  /** `_verifyUser`'s promise as the result of `_verifySignature`: a grant is a result. */
  function SomeGrant(r: Promise<Grant>): Promise<Option<Grant>> {
    match r
    case Fulfilled(grant) => Fulfilled(Some(grant))
    case Rejected(e) => Rejected(e)
    case Pending => Pending
  }

  /** The settling handlers of `authenticate`: a result succeeds, no result
      passes, any rejection fails with 403, and an unsettled promise calls nothing. */
  function Settle(r: Promise<Option<Grant>>): (o: Outcome)
    ensures o.Fail? ==> o.status == Forbidden
    ensures o.Fail? <==> r.Rejected?
    ensures o == Pass <==> r == Fulfilled(None)
    ensures o.Success? <==> r.Fulfilled? && r.value.Some?
  {
    match r
    case Fulfilled(Some(grant)) => Success(grant.user)
    case Fulfilled(None) => Pass
    case Rejected(reason) => Fail(Forbidden, reason)
    case Pending => Stuck
  }

  /** The outcome `authenticate` reaches for a request. */
  function Authentication(httpMethod: string, body: map<string, Value>, secret: string, verify: Callback, p: Platform)
    : Outcome
  {
    Settle(VerifySignature(httpMethod, body, secret, verify, p))
  }

  /** The request body after `authenticate`: merged with the environment on success. */
  function BodyAfter(body: map<string, Value>, r: Promise<Option<Grant>>): map<string, Value> {
    if r.Fulfilled? && r.value.Some? then AssignFrom(body, r.value.value.environment) else body
  }

  /** The incoming request: its method, and the parsed body the strategy updates in place. */
  class Request {
    var httpMethod: string
    var body: map<string, Value>

    constructor (httpMethod: string, body: map<string, Value>)
      ensures this.httpMethod == httpMethod && this.body == body
    {
      this.httpMethod := httpMethod;
      this.body := body;
    }
  }

  /** The strategy object: its name, the configured consumer secret and the verify callback. */
  class CanvasAppStrategy {
    var name: string
    var consumerSecret: string
    var verify: Callback

    ghost predicate Valid()
      reads this
    {
      name == StrategyName && consumerSecret != ""
    }

    /** Construction asserts a truthy consumer secret; the callback is a function by its type. */
    constructor (consumerSecret: string, verify: Callback)
      requires consumerSecret != ""
      ensures Valid()
      ensures this.consumerSecret == consumerSecret && this.verify == verify
    {
      name := StrategyName;
      this.consumerSecret := consumerSecret;
      this.verify := verify;
    }

    /** `authenticate(req)`: run the pipeline, merge the environment into `req.body`
        on success, and call exactly one of success, pass or fail, or none when the
        pipeline never settles. */
    method Authenticate(req: Request, p: Platform) returns (o: Outcome)
      requires Valid()
      modifies req`body
      ensures var r := VerifySignature(req.httpMethod, old(req.body), consumerSecret, verify, p);
        o == Settle(r) && req.body == BodyAfter(old(req.body), r)
      ensures o != Fail(Forbidden, NoSecret)
    {
      var result := VerifySignature(req.httpMethod, req.body, consumerSecret, verify, p);
      match result
      case Fulfilled(Some(grant)) =>
        req.body := AssignFrom(req.body, grant.environment);
        o := Success(grant.user);
      case Fulfilled(None) =>
        o := Pass;
      case Rejected(reason) =>
        o := Fail(Forbidden, reason);
      case Pending =>
        o := Stuck;
    }
  }
}
