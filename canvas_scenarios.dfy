/**
 * The repository's test scenarios as lemmas: the signed payload for user
 * 000456 of organization 000123, the identity service's answer for them, and
 * the test server's verify callback, which accepts a profile of organization
 * 000123 only. The cryptographic and JSON collaborators stay abstract: each
 * lemma assumes only what the scenario needs of them.
 */
module CanvasScenarios {
  import JsString
  import opened JsValue
  import opened CanvasApp
  import opened CanvasProperties

  const Secret := "FC99"
  const OAuthToken := "00D000"
  const OrganizationId := "000123"
  const UserId := "000456"
  const AccountId := "001xx1"

  /** The canvas payload the tests sign, with the organization id given. */
  function CanvasData(organizationId: string): Value {
    Obj(map["client" := Client(), "context" := Context(organizationId)])
  }

  function Client(): Value {
    Obj(map["oauthToken" := Str(OAuthToken)])
  }

  function Context(organizationId: string): Value {
    Obj(map[
      "organization" := Obj(map["organizationId" := Str(organizationId)]),
      "user" := User(),
      "environment" := Environment()])
  }

  function User(): Value {
    Obj(map["userId" := Str(UserId), "fullName" := Str("Assaf Arkin"), "email" := Str("assaf@broadly.com")])
  }

  /** The payload's `context.environment`: the canvas parameters and the record. */
  function Environment(): Value {
    Obj(map[
      "parameters" := Obj(map["page" := Str("special")]),
      "record" := Obj(map["Id" := Str(AccountId)])])
  }

  /** The payload without `client`. */
  function WithoutClient(): Value {
    Obj(map["context" := Context(OrganizationId)])
  }

  /** The payload without `context.user`. */
  function WithoutUser(): Value {
    Obj(map["client" := Client(), "context" := Obj(map[
      "organization" := Obj(map["organizationId" := Str(OrganizationId)]),
      "environment" := Environment()])])
  }

  /** The payload without `context.organization`. */
  function WithoutOrganization(): Value {
    Obj(map["client" := Client(), "context" := Obj(map["user" := User(), "environment" := Environment()])])
  }

  /** The profile query the test payload addresses. */
  lemma CanvasDataQuery(organizationId: string)
    ensures ReadQuery(CanvasData(organizationId))
         == Normal(ProfileQuery(Str(organizationId), Str(UserId), Str(OAuthToken)))
    ensures Get(Get(CanvasData(organizationId), "context"), "environment") == Environment()
  {
    var data := CanvasData(organizationId);
    assert Get(data, "context") == Context(organizationId);
    assert Get(data, "client") == Client();
    assert Get(Context(organizationId), "user") == User();
    assert Get(User(), "userId") == Str(UserId);
    assert Get(Client(), "oauthToken") == Str(OAuthToken);
  }

  /** The identity service's answer for user 000456 of organization 000123. */
  function IdentityProfile(): Value {
    Obj(map[
      "id" := Str("https://login.salesforce.com/id/000123/000456"),
      "user_id" := Str(UserId),
      "organization_id" := Str(OrganizationId),
      "display_name" := Str("Assaf Arkin"),
      "email" := Str("assaf@broadly.com")])
  }

  /** The test server's verify callback: the profile is the user when its
      organization is 000123, and there is no user otherwise. */
  function ServerVerifyUser(accessToken: Value, profile: Value): (v: Verdict)
    ensures v.Done? ==> v.error.None? && v.info.None?
    ensures v.Done? && Truthy(v.user) <==> !Nullish(profile) && Get(profile, "organization_id") == Str(OrganizationId)
  {
    if Nullish(profile) then Threw("no profile to read organization_id from")
    else if Get(profile, "organization_id") == Str(OrganizationId) then Done(None, profile, None)
    else Done(None, Bool(false), None)
  }

  /** A correctly signed request for Assaf of Broadly signs him in as the identity
      profile, and the body gains the canvas parameters and the record. */
  lemma SignedInAsProfile(body: map<string, Value>, p: Platform, encoded: string)
    requires SignedWith(body, Secret, p, encoded)
    requires DecodeEnvelope(encoded, p) == Normal(CanvasData(OrganizationId))
    requires p.lookup(ProfileQuery(Str(OrganizationId), Str(UserId), Str(OAuthToken))) == Response(200, IdentityProfile())
    ensures Authentication("POST", body, Secret, ServerVerifyUser, p) == Success(IdentityProfile())
    ensures BodyAfter(body, VerifySignature("POST", body, Secret, ServerVerifyUser, p)) == AssignFrom(body, Environment())
  {
    var data := CanvasData(OrganizationId);
    CanvasDataQuery(OrganizationId);
    assert ServerVerifyUser(Str(OAuthToken), IdentityProfile()) == Done(None, IdentityProfile(), None);
    CallbackDecides("POST", body, Secret, ServerVerifyUser, p, encoded, data, IdentityProfile());
  }

  /** Merging the test environment gives the body the canvas parameters and the
      record, and keeps the signed request. */
  lemma EnvironmentMerged(body: map<string, Value>)
    requires "signed_request" in body
    ensures var after := AssignFrom(body, Environment());
      && after["parameters"] == Obj(map["page" := Str("special")])
      && after["record"] == Obj(map["Id" := Str(AccountId)])
      && after["signed_request"] == body["signed_request"]
  {
    var fields := Environment().fields;
    assert OwnEntries(Environment()) == fields;
    assert "parameters" in fields && "record" in fields;
    assert "signed_request" !in fields;
  }

  /** A payload naming another organization is refused: by the callback when the
      identity service answers with a profile of that organization, and by the
      transport error when the service cannot be reached. */
  lemma OtherOrganizationRefused(body: map<string, Value>, p: Platform, encoded: string, profile: Value)
    requires SignedWith(body, Secret, p, encoded)
    requires DecodeEnvelope(encoded, p) == Normal(CanvasData("00DDDD"))
    requires var answer := p.lookup(ProfileQuery(Str("00DDDD"), Str(UserId), Str(OAuthToken)));
      answer == Response(200, profile) || answer.TransportError?
    requires Get(profile, "organization_id") == Str("00DDDD")
    ensures Authentication("POST", body, Secret, ServerVerifyUser, p).Fail?
    ensures p.lookup(ProfileQuery(Str("00DDDD"), Str(UserId), Str(OAuthToken))).Response? ==>
      Authentication("POST", body, Secret, ServerVerifyUser, p) == Fail(Forbidden, NotAuthorized(DefaultDenial))
  {
    var data := CanvasData("00DDDD");
    CanvasDataQuery("00DDDD");
    if p.lookup(ReadQuery(data).value).Response? {
      CallbackDecides("POST", body, Secret, ServerVerifyUser, p, encoded, data, profile);
    } else {
      PayloadFailuresFail("POST", body, Secret, ServerVerifyUser, p, encoded);
    }
  }

  /** Payloads without `client`, `context.user` or `context.organization` fail
      when the profile lookup reads through the missing object. */
  lemma MissingPayloadObjectsRefused(body: map<string, Value>, p: Platform, encoded: string, data: Value)
    requires SignedWith(body, Secret, p, encoded)
    requires data == WithoutClient() || data == WithoutUser() || data == WithoutOrganization()
    requires DecodeEnvelope(encoded, p) == Normal(data)
    ensures data == WithoutClient() ==>
      Authentication("POST", body, Secret, ServerVerifyUser, p) == Fail(Forbidden, CannotRead("oauthToken"))
    ensures data == WithoutUser() ==>
      Authentication("POST", body, Secret, ServerVerifyUser, p) == Fail(Forbidden, CannotRead("userId"))
    ensures data == WithoutOrganization() ==>
      Authentication("POST", body, Secret, ServerVerifyUser, p) == Fail(Forbidden, CannotRead("organizationId"))
  {
    MissingObjectsUnreadable();
    PayloadFailuresFail("POST", body, Secret, ServerVerifyUser, p, encoded);
  }

  /** Where the reads of `loadUserProfile` stop on the three incomplete payloads. */
  lemma MissingObjectsUnreadable()
    ensures ReadQuery(WithoutClient()) == Throw(CannotRead("oauthToken"))
    ensures ReadQuery(WithoutUser()) == Throw(CannotRead("userId"))
    ensures ReadQuery(WithoutOrganization()) == Throw(CannotRead("organizationId"))
  {
    assert Get(WithoutClient(), "context") == Context(OrganizationId);
    assert Get(Context(OrganizationId), "user") == User();
    assert Get(User(), "userId") == Str(UserId);
    assert Get(WithoutClient(), "client") == Undefined;
    var partial := Obj(map["user" := User(), "environment" := Environment()]);
    assert Get(WithoutOrganization(), "context") == partial;
    assert Get(partial, "user") == User();
    assert Get(partial, "organization") == Undefined;
  }

  /** A payload that is not base64-encoded JSON fails when JSON parsing throws. */
  lemma NonsensePayloadRefused(body: map<string, Value>, p: Platform)
    requires SignedWith(body, Secret, p, "nonsense")
    requires p.parseJson(p.base64Decode("nonsense")) == None
    ensures Authentication("POST", body, Secret, ServerVerifyUser, p) == Fail(Forbidden, BadPayload)
  {
    PayloadFailuresFail("POST", body, Secret, ServerVerifyUser, p, "nonsense");
  }

  /** A form without `signed_request` passes to whatever comes next. */
  lemma UnsignedFormPasses(p: Platform)
    ensures Authentication("POST", map["request" := Str("anything")], Secret, ServerVerifyUser, p) == Pass
  {
  }

  /** A signed request with no dot fails: its split gives a single part. */
  lemma UndelimitedRequestRefused(p: Platform, signed: string)
    requires signed != "" && '.' !in signed
    ensures Authentication("POST", map["signed_request" := Str(signed)], Secret, ServerVerifyUser, p)
         == Fail(Forbidden, PartCount(1))
  {
    JsString.SplitPiece(signed, '.');
    assert SignedRequest(map["signed_request" := Str(signed)]) == Str(signed);
  }
}
