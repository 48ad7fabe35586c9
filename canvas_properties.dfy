/**
 * What the `canvas-app` strategy guarantees, stated over the pipeline
 * functions of CanvasApp: when it passes, which malformed requests it
 * refuses, that only the secret's own signature gets a request past the
 * signature check, that the payload decoding, the identity lookup and the
 * verify callback are only reached in order, and how the callback's answer
 * and the payload's environment decide the outcome.
 */
module CanvasProperties {
  import opened JsString
  import opened JsValue
  import opened CanvasApp

  /** The body's signed request is `<signature>.<encoded>` where the signature is
      the secret's signature of `encoded`, and neither part contains a dot (the
      base64 alphabet has none). This is how a genuine signed request is built. */
  ghost predicate SignedWith(body: map<string, Value>, secret: string, p: Platform, encoded: string) {
    && '.' !in encoded
    && '.' !in SignatureFor(encoded, secret, p)
    && SignedRequest(body) == Str(SignatureFor(encoded, secret, p) + "." + encoded)
  }

  /** A request that is not a POST, or whose `signed_request` is missing or falsy,
      passes, and only such a request passes; passing leaves the body alone. */
  lemma PassExactlyWhenNotApplicable(httpMethod: string, body: map<string, Value>, secret: string, verify: Callback, p: Platform)
    ensures Authentication(httpMethod, body, secret, verify, p) == Pass <==> !Applicable(httpMethod, body)
    ensures !Applicable(httpMethod, body) ==>
      BodyAfter(body, VerifySignature(httpMethod, body, secret, verify, p)) == body
  {
  }

  /** A truthy `signed_request` that is not a string cannot be split and fails. */
  lemma UnsplittableRequestFails(httpMethod: string, body: map<string, Value>, secret: string, verify: Callback, p: Platform)
    requires Applicable(httpMethod, body) && !SignedRequest(body).Str?
    ensures Authentication(httpMethod, body, secret, verify, p) == Fail(Forbidden, NotSplittable)
  {
  }

  /** A signed request without exactly one dot (none, or two and more) fails,
      reporting how many parts the split gave. */
  lemma WrongPartCountFails(httpMethod: string, body: map<string, Value>, secret: string, verify: Callback, p: Platform)
    requires httpMethod == "POST" && SignedRequest(body).Str? && SignedRequest(body).s != ""
    requires multiset(SignedRequest(body).s)['.'] != 1
    ensures Authentication(httpMethod, body, secret, verify, p)
         == Fail(Forbidden, PartCount(multiset(SignedRequest(body).s)['.'] + 1))
  {
  }

  /** For a signed request `<signature>.<encoded>` whose parts have no dot, the
      signature check compares exactly `signature` with the secret's signature of
      `encoded`: equal, the pipeline goes on to `_verifyUser` with `encoded`;
      different, it fails with both signatures. */
  lemma SignatureCheckedExactly(httpMethod: string, body: map<string, Value>, secret: string, verify: Callback, p: Platform,
                                signature: string, encoded: string)
    requires httpMethod == "POST" && secret != ""
    requires '.' !in signature && '.' !in encoded
    requires SignedRequest(body) == Str(signature + "." + encoded)
    ensures signature == SignatureFor(encoded, secret, p) ==>
      VerifySignature(httpMethod, body, secret, verify, p) == SomeGrant(VerifyUser(encoded, verify, p))
    ensures signature != SignatureFor(encoded, secret, p) ==>
      Authentication(httpMethod, body, secret, verify, p)
        == Fail(Forbidden, SignatureMismatch(signature, SignatureFor(encoded, secret, p)))
  {
    SplitPair(signature, '.', encoded);
  }

  /** A genuinely signed request gets past the signature check to `_verifyUser`. */
  lemma SignedRequestAccepted(httpMethod: string, body: map<string, Value>, secret: string, verify: Callback, p: Platform,
                              encoded: string)
    requires httpMethod == "POST" && secret != ""
    requires SignedWith(body, secret, p, encoded)
    ensures VerifySignature(httpMethod, body, secret, verify, p) == SomeGrant(VerifyUser(encoded, verify, p))
  {
    SignatureCheckedExactly(httpMethod, body, secret, verify, p, SignatureFor(encoded, secret, p), encoded);
  }

  /** An empty signature never matches, since a digest is never empty. */
  lemma EmptySignatureFails(httpMethod: string, body: map<string, Value>, secret: string, verify: Callback, p: Platform,
                            encoded: string)
    requires httpMethod == "POST" && secret != "" && '.' !in encoded
    requires SignedRequest(body) == Str("." + encoded)
    requires SignatureFor(encoded, secret, p) != ""
    ensures Authentication(httpMethod, body, secret, verify, p)
         == Fail(Forbidden, SignatureMismatch("", SignatureFor(encoded, secret, p)))
  {
    assert "." + encoded == "" + "." + encoded;
    SignatureCheckedExactly(httpMethod, body, secret, verify, p, "", encoded);
  }

  /** A request signed with another secret fails whenever the two secrets'
      signatures of the payload differ. */
  lemma ForeignSecretFails(httpMethod: string, body: map<string, Value>, secret: string, other: string,
                           verify: Callback, p: Platform, encoded: string)
    requires httpMethod == "POST" && secret != ""
    requires SignedWith(body, other, p, encoded)
    requires SignatureFor(encoded, other, p) != SignatureFor(encoded, secret, p)
    ensures Authentication(httpMethod, body, secret, verify, p)
         == Fail(Forbidden, SignatureMismatch(SignatureFor(encoded, other, p), SignatureFor(encoded, secret, p)))
  {
    SignatureCheckedExactly(httpMethod, body, secret, verify, p, SignatureFor(encoded, other, p), encoded);
  }

  /** Decoding, the identity lookup and the verify callback are reached only
      after the signature matched: if changing any of them (the HMAC kept) can
      change the result, the request is a POST genuinely signed with the secret. */
  lemma CollaboratorsOnlyAfterSignature(httpMethod: string, body: map<string, Value>, secret: string,
                                        verify1: Callback, verify2: Callback, p1: Platform, p2: Platform)
    requires p1.hmac == p2.hmac
    requires VerifySignature(httpMethod, body, secret, verify1, p1) != VerifySignature(httpMethod, body, secret, verify2, p2)
    ensures httpMethod == "POST" && secret != "" && SignedRequest(body).Str?
    ensures |Split(SignedRequest(body).s, '.')| == 2
    ensures SignedWith(body, secret, p1, Split(SignedRequest(body).s, '.')[1])
  {
    var s := SignedRequest(body).s;
    var parts := Split(s, '.');
    JoinSplit(s, '.');
    assert parts[1..] == [parts[1]];
    assert s == parts[0] + "." + parts[1];
  }

  /** The identity lookup and the verify callback are reached only for a payload
      that decodes and whose `context`, `context.user`, `context.organization` and
      `client` can be read. */
  lemma LookupOnlyForReadablePayload(encoded: string, verify1: Callback, verify2: Callback, p1: Platform, p2: Platform)
    requires p1.base64Decode == p2.base64Decode && p1.parseJson == p2.parseJson
    requires VerifyUser(encoded, verify1, p1) != VerifyUser(encoded, verify2, p2)
    ensures DecodeEnvelope(encoded, p1).Normal? && ReadQuery(DecodeEnvelope(encoded, p1).value).Normal?
  {
  }

  /** The verify callback is reached only once the identity lookup answered 200. */
  lemma CallbackOnlyAfterProfile(encoded: string, verify1: Callback, verify2: Callback, p: Platform)
    requires VerifyUser(encoded, verify1, p) != VerifyUser(encoded, verify2, p)
    ensures DecodeEnvelope(encoded, p).Normal?
    ensures var data := DecodeEnvelope(encoded, p).value;
      ReadQuery(data).Normal? && p.lookup(ReadQuery(data).value).Response? &&
      p.lookup(ReadQuery(data).value).status == 200
  {
  }

  /** For a genuinely signed request, the payload steps decide the outcome in
      order: an undecodable payload, an unreadable field path or a transport
      error fails with 403; a non-200 lookup answer, or none, never settles. */
  lemma PayloadFailuresFail(httpMethod: string, body: map<string, Value>, secret: string, verify: Callback, p: Platform,
                            encoded: string)
    requires httpMethod == "POST" && secret != ""
    requires SignedWith(body, secret, p, encoded)
    ensures DecodeEnvelope(encoded, p).Throw? ==>
      Authentication(httpMethod, body, secret, verify, p) == Fail(Forbidden, BadPayload)
    ensures DecodeEnvelope(encoded, p).Normal? && ReadQuery(DecodeEnvelope(encoded, p).value).Throw? ==>
      Authentication(httpMethod, body, secret, verify, p) == Fail(Forbidden, ReadQuery(DecodeEnvelope(encoded, p).value).error)
    ensures DecodeEnvelope(encoded, p).Normal? && ReadQuery(DecodeEnvelope(encoded, p).value).Normal? ==>
      var answer := p.lookup(ReadQuery(DecodeEnvelope(encoded, p).value).value);
      && (answer.TransportError? ==> Authentication(httpMethod, body, secret, verify, p) == Fail(Forbidden, Transport(answer.message)))
      && (answer.Response? && answer.status != 200 ==> Authentication(httpMethod, body, secret, verify, p) == Stuck)
      && (answer.NoAnswer? ==> Authentication(httpMethod, body, secret, verify, p) == Stuck)
  {
    SignedRequestAccepted(httpMethod, body, secret, verify, p, encoded);
  }

  /** For a genuinely signed, readable payload whose profile loaded, the verify
      callback's answer decides: a truthy user succeeds as that user even when an
      error is also given, and the body gains the payload's environment; otherwise
      an error fails with its message, and no error fails with the info or the
      default message; a throw fails, and a callback that never answers never settles. */
  lemma CallbackDecides(httpMethod: string, body: map<string, Value>, secret: string, verify: Callback, p: Platform,
                        encoded: string, data: Value, profile: Value)
    requires httpMethod == "POST" && secret != ""
    requires SignedWith(body, secret, p, encoded)
    requires DecodeEnvelope(encoded, p) == Normal(data)
    requires ReadQuery(data).Normal? && p.lookup(ReadQuery(data).value) == Response(200, profile)
    ensures AccessToken(data) == Normal(ReadQuery(data).value.accessToken)
    ensures var answer := verify(ReadQuery(data).value.accessToken, profile);
      var outcome := Authentication(httpMethod, body, secret, verify, p);
      && (answer.Done? && Truthy(answer.user) ==>
            outcome == Success(answer.user) &&
            BodyAfter(body, VerifySignature(httpMethod, body, secret, verify, p))
              == AssignFrom(body, Get(Get(data, "context"), "environment")))
      && (answer.Done? && !Truthy(answer.user) && answer.error.Some? ==>
            outcome == Fail(Forbidden, CallbackError(answer.error.value)))
      && (answer.Done? && !Truthy(answer.user) && answer.error.None? && answer.info.Some? && answer.info.value != "" ==>
            outcome == Fail(Forbidden, NotAuthorized(answer.info.value)))
      && (answer.Done? && !Truthy(answer.user) && answer.error.None? && (answer.info.None? || answer.info.value == "") ==>
            outcome == Fail(Forbidden, NotAuthorized(DefaultDenial)))
      && (answer.Threw? ==> outcome == Fail(Forbidden, CallbackThrew(answer.message)))
      && (answer.Silent? ==> outcome == Stuck)
  {
    SignedRequestAccepted(httpMethod, body, secret, verify, p, encoded);
  }

  /** A success is granted only to a POST genuinely signed with the secret, whose
      payload decodes, whose profile the identity lookup returned with 200, and
      whose verify callback answered with that very (truthy) user. */
  lemma SuccessOnlyWhenEveryCheckPasses(httpMethod: string, body: map<string, Value>, secret: string, verify: Callback,
                                        p: Platform)
    requires Authentication(httpMethod, body, secret, verify, p).Success?
    ensures httpMethod == "POST" && secret != "" && SignedRequest(body).Str?
    ensures |Split(SignedRequest(body).s, '.')| == 2
    ensures var encoded := Split(SignedRequest(body).s, '.')[1];
      && SignedWith(body, secret, p, encoded)
      && DecodeEnvelope(encoded, p).Normal?
      && ReadQuery(DecodeEnvelope(encoded, p).value).Normal?
      && var query := ReadQuery(DecodeEnvelope(encoded, p).value).value;
         && p.lookup(query).Response? && p.lookup(query).status == 200
         && var answer := verify(query.accessToken, p.lookup(query).body);
            && answer.Done?
            && answer.user == Authentication(httpMethod, body, secret, verify, p).user
            && Truthy(answer.user)
  {
    var other := Platform(p.hmac, p.base64Decode, p.parseJson, q => Response(500, Undefined));
    assert VerifySignature(httpMethod, body, secret, verify, other).Pending?;
    CollaboratorsOnlyAfterSignature(httpMethod, body, secret, verify, verify, p, other);
  }

  /** A configured strategy (truthy secret) never fails for a missing secret. */
  lemma ConfiguredSecretNeverMissing(httpMethod: string, body: map<string, Value>, secret: string, verify: Callback,
                                     p: Platform)
    requires secret != ""
    ensures Authentication(httpMethod, body, secret, verify, p) != Fail(Forbidden, NoSecret)
  {
  }

  /** The strategy calls none of success, pass and fail only when the identity
      lookup never answered or answered with a status other than 200, or the
      verify callback never answered, for a genuinely signed request with a
      readable payload. */
  lemma StuckOnlyWhenUnanswered(httpMethod: string, body: map<string, Value>, secret: string, verify: Callback,
                                p: Platform)
    requires Authentication(httpMethod, body, secret, verify, p) == Stuck
    ensures httpMethod == "POST" && secret != "" && SignedRequest(body).Str?
    ensures |Split(SignedRequest(body).s, '.')| == 2
    ensures var encoded := Split(SignedRequest(body).s, '.')[1];
      && SignedWith(body, secret, p, encoded)
      && DecodeEnvelope(encoded, p).Normal?
      && ReadQuery(DecodeEnvelope(encoded, p).value).Normal?
      && var query := ReadQuery(DecodeEnvelope(encoded, p).value).value;
         && (|| p.lookup(query).NoAnswer?
             || (&& p.lookup(query).Response?
                 && (p.lookup(query).status != 200 || verify(query.accessToken, p.lookup(query).body).Silent?)))
  {
    var other := Platform(p.hmac, p.base64Decode, p.parseJson, q => TransportError(""));
    assert VerifySignature(httpMethod, body, secret, verify, other).Rejected?;
    CollaboratorsOnlyAfterSignature(httpMethod, body, secret, verify, verify, p, other);
  }
}
