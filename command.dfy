/** The aws-console command: its flags, the positional profile argument, and
    the pipeline that turns credentials into a login URL and hands it to one
    output sink. Every call outside the program (reading standard input, the
    shared config files, STS, the federation endpoint, the location
    resolver, the sinks) is a field of an Environment, and each run reports
    the external effects it caused, in order. */
module Cmd {
  import opened Types
  import opened Credentials
  import opened Console
  import Template

  /** versionFmt: the literal, followed by the formatted version text when
      version metadata is set. */
  function VersionFmt(version: string, literal: string, formatted: string): (s: string)
    ensures literal <= s
    ensures |s| == |literal| + (if version == "" then 0 else |formatted|)
    ensures version != "" ==> s[|literal|..] == formatted
  {
    if version == "" then literal else literal + formatted
  }

  /** The default User-Agent: the project name, then " <version> (<sha>)" when a version is set. */
  function DefaultUserAgent(version: string, shortSha: string): string {
    VersionFmt(version, "joshdk/aws-console", " " + version + " (" + shortSha + ")")
  }

  /** The values of all flags at one moment. */
  datatype FlagValues = FlagValues(
    browser: bool, clipboard: bool, duration: int, federateName: string, federatePolicy: string,
    location: string, profile: string, qr: bool, qrSize: int, region: string, userAgent: string)

  /** The four places a login URL can go. */
  datatype Sink = QrCode(size: int) | Browser | Clipboard | Stdout

  datatype Delivery = Delivery(sink: Sink, url: Url)

  /** The calls a run makes outside the program. */
  datatype Effect =
    | ReadStdin
    | LoadProfile(profile: string)
    | GetFederationToken(call: FederationCall)
    | GetSigninToken(request: Request)
    | Emit(delivery: Delivery)

  /** Where an effect sits in the fixed order of the stages. */
  function Stage(e: Effect): nat {
    match e
    case ReadStdin => 0
    case LoadProfile(_) => 0
    case GetFederationToken(_) => 1
    case GetSigninToken(_) => 2
    case Emit(_) => 3
  }

  datatype Environment = Environment(
    stdin: Stdin,
    fromConfig: ConfigLoader,
    sts: Sts,
    resolveLocation: (string, string) -> Option<string>,  // resolveLocationAlias(location, region)
    lib: Libraries,
    deliver: Delivery -> Option<string>)                  // the sink's error message, if it failed

  datatype RunOutcome = RunOutcome(err: Option<Error>, effects: seq<Effect>)

  const StdinProfile: string := "-"
  const DefaultRegion: string := "us-east-1"

  /** The effect that obtains the base credentials for `profile`. */
  function CredentialSource(profile: string): Effect {
    if profile == StdinProfile then ReadStdin else LoadProfile(profile)
  }

  /** The base credentials and the configured region; standard input has no region. */
  function LoadCredentials(profile: string, env: Environment): Result<ConfigProfile, Error> {
    if profile == StdinProfile then
      match ReaderCredentials(env.stdin)
      case Success(creds) => Success(ConfigProfile(creds, ""))
      case Failure(e) => Failure(e)
    else env.fromConfig(profile)
  }

  /** The preferred console region. */
  function ConsoleRegion(flagRegion: string, configRegion: string): (r: string)
    ensures flagRegion != "" ==> r == flagRegion
    ensures flagRegion == "" && configRegion != "" ==> r == configRegion
    ensures flagRegion == "" && configRegion == "" ==> r == DefaultRegion
    ensures r != ""
  {
    if flagRegion != "" then flagRegion else if configRegion == "" then DefaultRegion else configRegion
  }

  /** The one sink the URL goes to: qr, then browser, then clipboard, then standard output. */
  function SelectSink(f: FlagValues): (s: Sink)
    ensures s.QrCode? <==> f.qr
    ensures s.Browser? <==> !f.qr && f.browser
    ensures s.Clipboard? <==> !f.qr && !f.browser && f.clipboard
    ensures s.Stdout? <==> !f.qr && !f.browser && !f.clipboard
    ensures s.QrCode? ==> s.size == f.qrSize
  {
    if f.qr then QrCode(f.qrSize) else if f.browser then Browser else if f.clipboard then Clipboard else Stdout
  }

  /** The error of a sink; printing to standard output never reports one. */
  function DeliveryError(d: Delivery, env: Environment): Option<Error> {
    if d.sink.Stdout? then None
    else match env.deliver(d)
      case Some(message) => Some(OutputError(message))
      case None => None
  }

  function CallEffects(call: Option<FederationCall>): seq<Effect> {
    match call
    case Some(c) => [GetFederationToken(c)]
    case None => []
  }

  function RequestEffects(request: Option<Request>): seq<Effect> {
    match request
    case Some(r) => [GetSigninToken(r)]
    case None => []
  }

  /** What RunE does with the flags `f`: each stage runs only when the one
      before it succeeded. */
  function Pipeline(f: FlagValues, env: Environment): RunOutcome {
    var source := [CredentialSource(f.profile)];
    match LoadCredentials(f.profile, env)
    case Failure(e) => RunOutcome(Some(e), source)
    case Success(loaded) =>
      var region := ConsoleRegion(f.region, loaded.region);
      var policy := Template.ResolvePolicyAlias(f.federatePolicy);
      var fed := Federation(loaded.credentials, region, f.federateName, policy, f.duration, f.userAgent, env.sts);
      var federated := source + CallEffects(fed.call);
      match fed.result
      case Failure(e) => RunOutcome(Some(e), federated)
      case Success(creds) =>
        match env.resolveLocation(f.location, region)
        case None => RunOutcome(Some(LocationUnresolved(f.location)), federated)
        case Some(location) =>
          var login := LoginUrlOutcome(creds, f.duration, location, f.userAgent, env.lib);
          var signed := federated + RequestEffects(login.request);
          match login.result
          case Failure(e) => RunOutcome(Some(e), signed)
          case Success(url) =>
            var d := Delivery(SelectSink(f), url);
            RunOutcome(DeliveryError(d, env), signed + [Emit(d)])
  }

  class Command {
    var browser: bool
    var clipboard: bool
    var duration: int
    var federateName: string
    var federatePolicy: string
    var location: string
    var profile: string
    var qr: bool
    var qrSize: int
    var region: string
    var userAgent: string

    function Flags(): FlagValues
      reads this
    {
      FlagValues(browser, clipboard, duration, federateName, federatePolicy, location, profile, qr, qrSize, region, userAgent)
    }

    /** The flag defaults; the command line may assign any field afterwards. */
    constructor (version: string, shortSha: string)
      ensures Flags() == FlagValues(false, false, 0, "aws-console", "admin", "home", "", false, 780, "",
                                    DefaultUserAgent(version, shortSha))
    {
      browser := false;
      clipboard := false;
      duration := 0;
      location := "home";
      federateName := "aws-console";
      federatePolicy := "admin";
      profile := "";
      qr := false;
      qrSize := 780;
      region := "";
      userAgent := VersionFmt(version, "joshdk/aws-console", " " + version + " (" + shortSha + ")");
    }

    /** A positional argument, when given, becomes the profile name. */
    method PreRun(args: seq<string>)
      modifies this`profile
      ensures profile == if |args| >= 1 then args[0] else old(profile)
    {
      if |args| >= 1 {
        profile := args[0];
      }
    }

    method RunE(env: Environment) returns (err: Option<Error>, effects: seq<Effect>)
      ensures RunOutcome(err, effects) == Pipeline(Flags(), env)
    {
      // Stage 1: the credential source the profile flag selects.
      var creds: Types.Credentials;
      var consoleRegion := "";
      effects := [CredentialSource(profile)];
      if profile == StdinProfile {
        var read := FromReader(env.stdin);
        if read.Failure? {
          return Some(read.error), effects;
        }
        creds := read.value;
      } else {
        var loaded := env.fromConfig(profile);
        if loaded.Failure? {
          return Some(loaded.error), effects;
        }
        creds, consoleRegion := loaded.value.credentials, loaded.value.region;
      }

      // Flag, then configured region, then us-east-1.
      if region != "" {
        consoleRegion := region;
      } else if consoleRegion == "" {
        consoleRegion := DefaultRegion;
      }

      var policy := Template.ResolvePolicyAlias(federatePolicy);
      var federated, call := FederateUser(creds, consoleRegion, federateName, policy, duration, userAgent, env.sts);
      effects := effects + CallEffects(call);
      if federated.Failure? {
        return Some(federated.error), effects;
      }
      creds := federated.value;

      var destination := env.resolveLocation(location, consoleRegion);
      if destination.None? {
        return Some(LocationUnresolved(location)), effects;
      }

      var url, request := GenerateLoginUrl(creds, duration, destination.value, userAgent, env.lib);
      effects := effects + RequestEffects(request);
      if url.Failure? {
        return Some(url.error), effects;
      }

      var sink: Sink;
      if qr {
        sink := QrCode(qrSize);
      } else if browser {
        sink := Browser;
      } else if clipboard {
        sink := Clipboard;
      } else {
        sink := Stdout;
      }
      var delivery := Delivery(sink, url.value);
      effects := effects + [Emit(delivery)];
      if sink.Stdout? {
        err := None;
      } else {
        var failure := env.deliver(delivery);
        err := if failure.Some? then Some(OutputError(failure.value)) else None;
      }
    }
  }

  // -----------------------------------------------------------------------
  // Properties of the pipeline

  /** The profile "-" reads standard input; any other profile loads the config files. */
  lemma CredentialSourceFirst(f: FlagValues, env: Environment)
    ensures |Pipeline(f, env).effects| >= 1
    ensures Pipeline(f, env).effects[0] == (if f.profile == "-" then ReadStdin else LoadProfile(f.profile))
  {
  }

  /** The effects of a run come in stage order, each stage at most once. */
  lemma EffectsInStageOrder(f: FlagValues, env: Environment)
    ensures var effects := Pipeline(f, env).effects;
      forall i, j :: 0 <= i < j < |effects| ==> Stage(effects[i]) < Stage(effects[j])
  {
  }

  /** A credential error ends the run before anything else happens. */
  lemma CredentialErrorAborts(f: FlagValues, env: Environment)
    requires LoadCredentials(f.profile, env).Failure?
    ensures Pipeline(f, env) == RunOutcome(Some(LoadCredentials(f.profile, env).error), [CredentialSource(f.profile)])
  {
  }

  /** No signin-token request and no output after a failed federation or an
      unresolvable location, the latter error naming the location; no output
      after a failed login URL. */
  lemma LaterStagesNeedEarlierOnes(f: FlagValues, env: Environment)
    requires LoadCredentials(f.profile, env).Success?
    ensures var loaded := LoadCredentials(f.profile, env).value;
      var region := ConsoleRegion(f.region, loaded.region);
      var fed := Federation(loaded.credentials, region, f.federateName,
                            Template.ResolvePolicyAlias(f.federatePolicy), f.duration, f.userAgent, env.sts);
      var out := Pipeline(f, env);
      && (fed.result.Failure? ==> out == RunOutcome(Some(fed.result.error), [CredentialSource(f.profile)] + CallEffects(fed.call)))
      && (fed.result.Success? && env.resolveLocation(f.location, region).None? ==>
            out == RunOutcome(Some(LocationUnresolved(f.location)), [CredentialSource(f.profile)] + CallEffects(fed.call)))
      && (fed.result.Success? && env.resolveLocation(f.location, region).Some? ==>
            var login := LoginUrlOutcome(fed.result.value, f.duration, env.resolveLocation(f.location, region).value,
                                         f.userAgent, env.lib);
            login.result.Failure? ==>
              out == RunOutcome(Some(login.result.error),
                                [CredentialSource(f.profile)] + CallEffects(fed.call) + RequestEffects(login.request)))
  {
  }

  /** Credentials that already carry a session token are never federated. */
  lemma TemporaryCredentialsSkipFederation(f: FlagValues, env: Environment)
    requires LoadCredentials(f.profile, env).Success?
    requires LoadCredentials(f.profile, env).value.credentials.sessionToken != ""
    ensures forall e :: e in Pipeline(f, env).effects ==> !e.GetFederationToken?
  {
  }

  /** The region STS and the location resolver see: the flag, then the
      configured region (never for standard input), then us-east-1. */
  lemma FederationUsesConsoleRegion(f: FlagValues, env: Environment, i: nat)
    requires i < |Pipeline(f, env).effects| && Pipeline(f, env).effects[i].GetFederationToken?
    ensures LoadCredentials(f.profile, env).Success?
    ensures var call := Pipeline(f, env).effects[i].call;
      && call.client.region == ConsoleRegion(f.region, LoadCredentials(f.profile, env).value.region)
      && call.client.userAgent == f.userAgent
      && call.input == FederationInput(f.federateName, Template.ResolvePolicyAlias(f.federatePolicy), f.duration)
    ensures f.profile == "-" ==>
      Pipeline(f, env).effects[i].call.client.region == (if f.region != "" then f.region else DefaultRegion)
  {
  }

  /** A run that ends without error has sent the URL to exactly one sink,
      the one the flags select, as its last effect. */
  lemma SuccessEmitsOnce(f: FlagValues, env: Environment)
    requires Pipeline(f, env).err.None?
    ensures var effects := Pipeline(f, env).effects;
      && |effects| >= 2
      && effects[|effects| - 1].Emit?
      && effects[|effects| - 1].delivery.sink == SelectSink(f)
      && (forall i :: 0 <= i < |effects| - 1 ==> !effects[i].Emit?)
      && effects[|effects| - 2].GetSigninToken?
  {
  }
}
