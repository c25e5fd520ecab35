/** Obtaining base credentials from a JSON document on standard input, and
    federating long-lived IAM-user credentials into temporary ones with STS
    GetFederationToken. JSON decoding and the STS call are parameters; what
    is modelled is which fields end up where and which call is made. */
module Credentials {
  import opened Types

  // ---------------------------------------------------------------------
  // FromConfig (shared config files) is foreign: its outcome is a value.

  /** What FromConfig returns on success: the profile's credentials and its configured region. */
  datatype ConfigProfile = ConfigProfile(credentials: Credentials, region: string)

  type ConfigLoader = string -> Result<ConfigProfile, Error>

  // ---------------------------------------------------------------------
  // FromReader

  /** The three string fields of processcreds.CredentialProcessResponse that
      FromReader copies out (Version and Expiration are never read). */
  datatype ProcessResponse = ProcessResponse(accessKeyId: string, secretAccessKey: string, sessionToken: string)

  /** Go's zero value for the decode target. */
  const EmptyResponse := ProcessResponse("", "", "")

  /** The fields one json.Unmarshal call assigns in the target; a field the
      document does not mention is left as it was. */
  datatype Patch = Patch(accessKeyId: Option<string>, secretAccessKey: Option<string>, sessionToken: Option<string>)

  /** The effect of one json.Unmarshal of the input: the fields it assigned
      and whether it returned nil. Go's decoder keeps assigning fields after a
      type mismatch and reports the mismatch at the end, so a decode can both
      write fields and fail. */
  datatype Decoding = Decoding(writes: Patch, ok: bool)

  /** Standard input: either reading it failed, or its bytes were decoded
      once as the nested shape {"Credentials":{...}} (into the field
      Credentials of the outer struct) and once as the flat shape (into that
      same field directly). */
  datatype Stdin = Unreadable(message: string) | Body(asNested: Decoding, asFlat: Decoding)

  /** The decode target after a decode has written its fields into it. */
  function Overlay(target: ProcessResponse, p: Patch): (r: ProcessResponse) {
    ProcessResponse(
      p.accessKeyId.GetOr(target.accessKeyId),
      p.secretAccessKey.GetOr(target.secretAccessKey),
      p.sessionToken.GetOr(target.sessionToken))
  }

  /** The acceptance test applied after each decode. */
  predicate Complete(r: ProcessResponse) {
    r.accessKeyId != "" && r.secretAccessKey != ""
  }

  function ToCredentials(r: ProcessResponse): Credentials {
    Credentials(r.accessKeyId, r.secretAccessKey, r.sessionToken)
  }

  /** What FromReader returns for a given input: the nested decode is tried
      first; the flat decode writes into the SAME target, on top of whatever
      the nested decode left there. */
  function ReaderCredentials(input: Stdin): Result<Credentials, Error> {
    match input
    case Unreadable(message) => Failure(ReadError(message))
    case Body(nested, flat) =>
      var first := Overlay(EmptyResponse, nested.writes);
      var second := Overlay(first, flat.writes);
      if nested.ok && Complete(first) then Success(ToCredentials(first))
      else if flat.ok && Complete(second) then Success(ToCredentials(second))
      else Failure(CredentialsUnparsed)
  }

  method FromReader(input: Stdin) returns (r: Result<Credentials, Error>)
    ensures r == ReaderCredentials(input)
    ensures r.Success? ==> r.value.accessKeyId != "" && r.value.secretAccessKey != ""
  {
    if input.Unreadable? {
      return Failure(ReadError(input.message));
    }
    var result := EmptyResponse;
    result := Overlay(result, input.asNested.writes);
    if input.asNested.ok && Complete(result) {
      return Success(ToCredentials(result));
    }
    result := Overlay(result, input.asFlat.writes);
    if input.asFlat.ok && Complete(result) {
      return Success(ToCredentials(result));
    }
    return Failure(CredentialsUnparsed);
  }

  /** An accepted nested decode yields exactly the three fields it wrote. */
  lemma NestedShapeAccepted(nested: Decoding, flat: Decoding)
    requires nested.ok && Complete(Overlay(EmptyResponse, nested.writes))
    ensures nested.writes.accessKeyId.Some? && nested.writes.secretAccessKey.Some?
    ensures ReaderCredentials(Body(nested, flat)) == Success(Credentials(
      nested.writes.accessKeyId.value, nested.writes.secretAccessKey.value, nested.writes.sessionToken.GetOr("")))
  {
  }

  /** When both shapes would be accepted on their own, the nested one wins. */
  lemma NestedShapeWins(nested: Decoding, flat: Decoding)
    requires nested.ok && Complete(Overlay(EmptyResponse, nested.writes))
    requires flat.ok && Complete(Overlay(EmptyResponse, flat.writes))
    ensures ReaderCredentials(Body(nested, flat)) == Success(ToCredentials(Overlay(EmptyResponse, nested.writes)))
  {
  }

  /** Otherwise the flat decode, merged over the fields the nested decode set, is tried. */
  lemma FlatShapeFallback(nested: Decoding, flat: Decoding)
    requires !(nested.ok && Complete(Overlay(EmptyResponse, nested.writes)))
    ensures var merged := Overlay(Overlay(EmptyResponse, nested.writes), flat.writes);
      ReaderCredentials(Body(nested, flat)) ==
        if flat.ok && Complete(merged) then Success(ToCredentials(merged)) else Failure(CredentialsUnparsed)
    ensures var merged := Overlay(Overlay(EmptyResponse, nested.writes), flat.writes);
      && merged.accessKeyId == flat.writes.accessKeyId.GetOr(nested.writes.accessKeyId.GetOr(""))
      && merged.secretAccessKey == flat.writes.secretAccessKey.GetOr(nested.writes.secretAccessKey.GetOr(""))
      && merged.sessionToken == flat.writes.sessionToken.GetOr(nested.writes.sessionToken.GetOr(""))
  {
  }

  /** A field assigned by a failed nested decode survives into the flat
      attempt: a nested document with a type error elsewhere is still
      accepted when the flat decode succeeds without touching the keys. */
  lemma NestedFieldsSurviveFailedDecode()
    ensures ReaderCredentials(Body(
      Decoding(Patch(Some("AKIA"), Some("secret"), None), false),
      Decoding(Patch(None, None, None), true))) == Success(Credentials("AKIA", "secret", ""))
  {
  }

  /** Neither decode accepted: the fixed parse error, and only then. */
  lemma UnparsedIffNeitherAccepted(nested: Decoding, flat: Decoding)
    ensures var first := Overlay(EmptyResponse, nested.writes);
      ReaderCredentials(Body(nested, flat)) == Failure(CredentialsUnparsed) <==>
        !(nested.ok && Complete(first)) && !(flat.ok && Complete(Overlay(first, flat.writes)))
  {
  }

  // ---------------------------------------------------------------------
  // FederateUser

  /** Fifteen minutes: the smallest DurationSeconds GetFederationToken accepts. */
  const MinFederationDuration: int := 15 * Minute

  /** sts.GetFederationTokenInput: the session name, the attached managed
      policy ARNs and the optional requested lifetime in seconds. */
  datatype FederationTokenInput = FederationTokenInput(name: string, policyArns: seq<string>, durationSeconds: Option<int>)

  /** The STS client the call goes through: static credentials, a region, and
      the User-Agent header the middleware installs. */
  datatype ClientConfig = ClientConfig(credentials: Credentials, region: string, userAgent: string)

  datatype FederationCall = FederationCall(client: ClientConfig, input: FederationTokenInput)

  /** The Credentials element of a GetFederationTokenOutput; each field is a
      pointer in Go and reads as "" when nil. */
  datatype StsCredentials = StsCredentials(accessKeyId: Option<string>, secretAccessKey: Option<string>, sessionToken: Option<string>)

  /** STS GetFederationToken: the temporary credentials, or the message of the SDK's error. */
  type Sts = FederationCall -> Result<StsCredentials, string>

  /** The result of FederateUser together with the STS call it made, if any. */
  datatype FederationOutcome = FederationOutcome(result: Result<Credentials, Error>, call: Option<FederationCall>)

  /** The request FederateUser sends. */
  function FederationInput(name: string, policy: string, duration: int): (input: FederationTokenInput)
    ensures input.name == name && input.policyArns == [policy]
    ensures input.durationSeconds.None? <==> duration == 0
    // a short non-zero request (negative ones included) is raised to fifteen minutes
    ensures duration != 0 && duration < MinFederationDuration ==> input.durationSeconds == Some(900)
    // anything longer is passed on in whole seconds, with no upper bound
    ensures duration >= MinFederationDuration ==> input.durationSeconds == Some(duration / Second)
    ensures input.durationSeconds.Some? ==> input.durationSeconds.value >= 900
  {
    var clamped := if duration != 0 && duration < MinFederationDuration then MinFederationDuration else duration;
    FederationTokenInput(name, [policy], if clamped != 0 then Some(WholeSeconds(clamped)) else None)
  }

  function FromSts(c: StsCredentials): Credentials {
    Credentials(c.accessKeyId.GetOr(""), c.secretAccessKey.GetOr(""), c.sessionToken.GetOr(""))
  }

  /** What FederateUser does: nothing for credentials that already carry a
      session token, otherwise exactly one GetFederationToken call. */
  function Federation(creds: Credentials, region: string, name: string, policy: string, duration: int,
                      userAgent: string, sts: Sts): (out: FederationOutcome)
    ensures creds.sessionToken != "" ==> out == FederationOutcome(Success(creds), None)
    ensures creds.sessionToken == "" ==> out.call == Some(FederationCall(
      ClientConfig(creds, region, userAgent), FederationInput(name, policy, duration)))
    ensures out.call.Some? ==> match sts(out.call.value)
      case Failure(e) => out.result == Failure(FederationError(e))
      case Success(c) => out.result == Success(FromSts(c))
  {
    if creds.sessionToken != "" then FederationOutcome(Success(creds), None)
    else
      var call := FederationCall(ClientConfig(creds, region, userAgent), FederationInput(name, policy, duration));
      match sts(call)
      case Failure(e) => FederationOutcome(Failure(FederationError(e)), Some(call))
      case Success(c) => FederationOutcome(Success(FromSts(c)), Some(call))
  }

  method FederateUser(creds: Credentials, region: string, name: string, policy: string, duration: int,
                      userAgent: string, sts: Sts)
    returns (r: Result<Credentials, Error>, call: Option<FederationCall>)
    ensures FederationOutcome(r, call) == Federation(creds, region, name, policy, duration, userAgent, sts)
  {
    // Temporary credentials (those with a session token) are returned as they are.
    if creds.sessionToken != "" {
      return Success(creds), None;
    }
    var client := ClientConfig(creds, region, userAgent);
    var input := FederationTokenInput(name, [policy], None);
    var d := duration;
    if d != 0 && d < MinFederationDuration {
      d := MinFederationDuration;
    }
    if d != 0 {
      input := input.(durationSeconds := Some(WholeSeconds(d)));
    }
    call := Some(FederationCall(client, input));
    var result := sts(call.value);
    if result.Failure? {
      return Failure(FederationError(result.error)), call;
    }
    r := Success(FromSts(result.value));
  }

  /** Temporary credentials are returned as they are, and STS is never called. */
  lemma TemporaryCredentialsPassThrough(creds: Credentials, region: string, name: string, policy: string,
                                        duration: int, userAgent: string, sts: Sts)
    requires creds.sessionToken != ""
    ensures Federation(creds, region, name, policy, duration, userAgent, sts).result == Success(creds)
    ensures Federation(creds, region, name, policy, duration, userAgent, sts).call.None?
  {
  }

  /** Federation happens exactly for user credentials. */
  lemma FederatesIffUserCredentials(creds: Credentials, region: string, name: string, policy: string,
                                    duration: int, userAgent: string, sts: Sts)
    ensures Federation(creds, region, name, policy, duration, userAgent, sts).call.Some? <==> creds.sessionToken == ""
  {
  }
}
