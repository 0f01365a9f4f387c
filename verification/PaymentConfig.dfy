/**
 Payment credentials by generation, and how the configuration for a call is resolved from them:
 the generation that accepts new payments, or for a refund the one the payment was made under.
 */
module PaymentConfig {
  import opened Wrappers

  datatype CredentialStatus = Pending | Active | Retired

  /** `openable`: whether the stored keys can be decrypted just now. */
  datatype Generation = Generation(
    provider: string, environment: string, number: nat, status: CredentialStatus, acceptsNewPayments: bool,
    checkSucceeded: bool, accountRef: Option<string>, apiVersion: Option<string>,
    secretKey: string, webhookSecret: string, openable: bool)

  type Credentials = map<string, Generation>

  datatype Deployment = Deployment(
    secretKey: string, webhookSecret: string, apiVersion: string, successUrl: string, cancelUrl: string)

  datatype Settings = Settings(
    enabled: bool, apiVersion: Option<string>, successUrl: Option<string>, cancelUrl: Option<string>)

  /** Fixed for the life of a process. */
  datatype Options = Options(
    deployment: Option<Deployment>, provider: string, environment: string, hasCredentials: bool, emergencyOverride: bool)

  datatype SettingsSource = FromDatabase | FromEnvironment

  datatype KeySource = FromGeneration | FromDeployment

  datatype Config = Config(
    secretKey: string, webhookSecret: string, apiVersion: string, successUrl: string, cancelUrl: string,
    settingsSource: SettingsSource, keySource: KeySource, credentialId: Option<string>)

  datatype Reason = Disabled | NoCredential | Incomplete

  // --- generations ----------------------------------------------------------------------

  predicate Accepting(g: Generation, provider: string, environment: string) {
    g.provider == provider && g.environment == environment && g.status.Active? && g.acceptsNewPayments
  }

  function AcceptingIds(creds: Credentials, provider: string, environment: string): set<string> {
    set id | id in creds && Accepting(creds[id], provider, environment)
  }

  /** With two at once, none is chosen. */
  ghost function AcceptingGeneration(creds: Credentials, provider: string, environment: string): (r: Option<string>)
    ensures forall id :: r == Some(id) <==> AcceptingIds(creds, provider, environment) == {id}
  {
    var ids := AcceptingIds(creds, provider, environment);
    if |ids| == 1 then
      var id :| id in ids;
      SingletonIs(ids, id);
      Some(id)
    else None
  }

  lemma SingletonIs(ids: set<string>, id: string)
    requires |ids| == 1 && id in ids
    ensures ids == {id}
  {
    assert |ids - {id}| == 0;
  }

  predicate CanOpen(creds: Credentials, id: string) {
    id in creds && creds[id].openable
  }

  // --- resolving ------------------------------------------------------------------------

  datatype Keys = Keys(
    secretKey: string, webhookSecret: string, apiVersion: Option<string>, source: KeySource, credentialId: Option<string>)

  function OpenedKeys(creds: Credentials, id: string): Keys
    requires id in creds
  {
    Keys(creds[id].secretKey, creds[id].webhookSecret, creds[id].apiVersion, FromGeneration, Some(id))
  }

  ghost function ResolveKeys(o: Options, creds: Credentials): Result<Keys, Reason> {
    if o.emergencyOverride then
      if o.deployment.None? || o.deployment.value.secretKey == "" || o.deployment.value.webhookSecret == ""
      then Err(Incomplete)
      else
        var d := o.deployment.value;
        Ok(Keys(d.secretKey, d.webhookSecret, if d.apiVersion == "" then None else Some(d.apiVersion), FromDeployment, None))
    else if !o.hasCredentials then Err(NoCredential)
    else match AcceptingGeneration(creds, o.provider, o.environment)
      case None => Err(NoCredential)
      case Some(id) => if CanOpen(creds, id) then Ok(OpenedKeys(creds, id)) else Err(NoCredential)
  }

  function DeployedVersion(o: Options): string {
    if o.deployment.Some? then o.deployment.value.apiVersion else ""
  }

  function SuccessUrl(o: Options): string {
    if o.deployment.Some? then o.deployment.value.successUrl else ""
  }

  function CancelUrl(o: Options): string {
    if o.deployment.Some? then o.deployment.value.cancelUrl else ""
  }

  function OrElse(a: Option<string>, b: string): string {
    if a.Some? then a.value else b
  }

  predicate HasReturnUrls(settings: Option<Settings>) {
    settings.Some? && settings.value.successUrl.Some? && settings.value.cancelUrl.Some?
  }

  /** The addresses to return to, once the keys are there: stored ones, or the deployment's. */
  function WithReturnUrls(o: Options, settings: Option<Settings>, keys: Keys): Result<Config, Reason> {
    var version := OrElse(keys.apiVersion, DeployedVersion(o));
    if HasReturnUrls(settings) then
      var s := settings.value;
      Ok(Config(keys.secretKey, keys.webhookSecret, OrElse(s.apiVersion, version), s.successUrl.value, s.cancelUrl.value,
                FromDatabase, keys.source, keys.credentialId))
    else if SuccessUrl(o) == "" || CancelUrl(o) == "" then Err(Incomplete)
    else Ok(Config(keys.secretKey, keys.webhookSecret, version, SuccessUrl(o), CancelUrl(o),
                   FromEnvironment, keys.source, keys.credentialId))
  }

  /** Whether the integration is stopped is looked at before anything else. */
  ghost function Resolve(o: Options, settings: Option<Settings>, creds: Credentials): Result<Config, Reason> {
    if settings.Some? && !settings.value.enabled then Err(Disabled)
    else match ResolveKeys(o, creds)
      case Err(reason) => Err(reason)
      case Ok(keys) => WithReturnUrls(o, settings, keys)
  }

  function ResolveByCredential(o: Options, creds: Credentials, id: string): Result<Config, Reason> {
    if !o.hasCredentials || !CanOpen(creds, id) then Err(NoCredential)
    else
      var keys := OpenedKeys(creds, id);
      Ok(Config(keys.secretKey, keys.webhookSecret, OrElse(keys.apiVersion, DeployedVersion(o)),
                SuccessUrl(o), CancelUrl(o), FromEnvironment, FromGeneration, Some(id)))
  }

  ghost predicate UsesDeployedKeys(o: Options, c: Config) {
    && o.emergencyOverride && c.keySource.FromDeployment? && c.credentialId.None? && o.deployment.Some?
    && c.secretKey == o.deployment.value.secretKey != "" && c.webhookSecret == o.deployment.value.webhookSecret != ""
  }

  ghost predicate UsesKeysOf(creds: Credentials, c: Config, id: string) {
    && c.keySource.FromGeneration? && c.credentialId == Some(id) && id in creds
    && c.secretKey == creds[id].secretKey && c.webhookSecret == creds[id].webhookSecret
  }

  /**
   A new payment goes to the keys of the one accepting generation, or with the override to the
   deployment's own; never to the latter otherwise. It goes nowhere exactly when the integration
   is stopped, those keys are not to be had, or there is no address to return to; and being
   stopped is what is said first.
   */
  lemma NewPaymentsGoToTheAcceptingGeneration(o: Options, settings: Option<Settings>, creds: Credentials)
    ensures var r := Resolve(o, settings, creds);
            var stopped := settings.Some? && !settings.value.enabled;
            var addressed := HasReturnUrls(settings) || (SuccessUrl(o) != "" && CancelUrl(o) != "");
            var deployed := o.deployment.Some? && o.deployment.value.secretKey != "" && o.deployment.value.webhookSecret != "";
            && (r.Ok? && o.emergencyOverride ==> UsesDeployedKeys(o, r.value))
            && (r.Ok? && !o.emergencyOverride ==>
                  r.value.credentialId.Some?
                  && AcceptingIds(creds, o.provider, o.environment) == {r.value.credentialId.value}
                  && UsesKeysOf(creds, r.value, r.value.credentialId.value))
            && (r.Ok? <==> !stopped && addressed
                           && (if o.emergencyOverride then deployed
                               else o.hasCredentials
                                    && exists id :: AcceptingIds(creds, o.provider, o.environment) == {id} && CanOpen(creds, id)))
            && (r == Err(Disabled) <==> stopped)
  {
    var accepting := AcceptingGeneration(creds, o.provider, o.environment);
    forall id | AcceptingIds(creds, o.provider, o.environment) == {id}
      ensures accepting == Some(id)
    {
    }
    if accepting.Some? {
      assert AcceptingIds(creds, o.provider, o.environment) == {accepting.value};
    }
  }

  /** A refund is resolved by its generation alone: neither stopping, nor retiring, nor the override comes into it. */
  lemma RefundsResolveByGeneration(o: Options, creds: Credentials, id: string)
    ensures var r := ResolveByCredential(o, creds, id);
            && (r.Ok? <==> o.hasCredentials && CanOpen(creds, id))
            && (r.Ok? ==> UsesKeysOf(creds, r.value, id))
  {
  }

  /** The version that goes with the keys a new payment is made with. */
  ghost function KeysVersion(o: Options, creds: Credentials, c: Config): Option<string> {
    if c.credentialId.Some? && c.credentialId.value in creds then creds[c.credentialId.value].apiVersion
    else if o.deployment.Some? && o.deployment.value.apiVersion != "" then Some(o.deployment.value.apiVersion)
    else None
  }

  /**
   Where the customer is sent back to, and the version spoken: the stored addresses if both are
   stored, else the deployment's; the stored version only with the stored addresses, else the one
   that goes with the keys, else the deployment's.
   */
  lemma ResolvedConfigSays(o: Options, settings: Option<Settings>, creds: Credentials)
    requires Resolve(o, settings, creds).Ok?
    ensures var c := Resolve(o, settings, creds).value;
            var version := KeysVersion(o, creds, c);
            var deployed := if version.Some? then version.value
                            else if o.deployment.Some? then o.deployment.value.apiVersion else "";
            if settings.Some? && settings.value.successUrl.Some? && settings.value.cancelUrl.Some? then
              && c.settingsSource == FromDatabase
              && c.successUrl == settings.value.successUrl.value && c.cancelUrl == settings.value.cancelUrl.value
              && c.apiVersion == (if settings.value.apiVersion.Some? then settings.value.apiVersion.value else deployed)
            else
              && c.settingsSource == FromEnvironment && o.deployment.Some?
              && c.successUrl == o.deployment.value.successUrl != "" && c.cancelUrl == o.deployment.value.cancelUrl != ""
              && c.apiVersion == deployed
  {
    NewPaymentsGoToTheAcceptingGeneration(o, settings, creds);
  }

  /** Why there is no configuration: stopped; or the keys cannot be had; or something is not filled in. */
  lemma RefusalSaysExactly(o: Options, settings: Option<Settings>, creds: Credentials)
    ensures var r := Resolve(o, settings, creds);
            var stopped := settings.Some? && !settings.value.enabled;
            var stored := settings.Some? && settings.value.successUrl.Some? && settings.value.cancelUrl.Some?;
            var addressed := stored || (o.deployment.Some? && o.deployment.value.successUrl != "" && o.deployment.value.cancelUrl != "");
            var deployed := o.deployment.Some? && o.deployment.value.secretKey != "" && o.deployment.value.webhookSecret != "";
            var havable := o.hasCredentials && exists id :: AcceptingIds(creds, o.provider, o.environment) == {id} && CanOpen(creds, id);
            && (r == Err(Disabled) <==> stopped)
            && (r == Err(NoCredential) <==> !stopped && !o.emergencyOverride && !havable)
            && (r == Err(Incomplete) <==> !stopped && (if o.emergencyOverride then !deployed || !addressed else havable && !addressed))
  {
    NewPaymentsGoToTheAcceptingGeneration(o, settings, creds);
  }

  /** Which generations accept: those of this provider and environment that are active and set to. */
  lemma AcceptingAre(creds: Credentials, provider: string, environment: string, id: string)
    ensures id in AcceptingIds(creds, provider, environment)
            <==> id in creds && creds[id].provider == provider && creds[id].environment == environment
                 && creds[id].status == CredentialStatus.Active && creds[id].acceptsNewPayments
  {
  }

  /** A refund's configuration: the generation's keys and version, and the deployment's addresses. */
  lemma RefundConfigSays(o: Options, creds: Credentials, id: string)
    requires o.hasCredentials && id in creds && creds[id].openable
    ensures var d := if o.deployment.Some? then o.deployment.value else Deployment("", "", "", "", "");
            ResolveByCredential(o, creds, id) == Ok(Config(
                creds[id].secretKey, creds[id].webhookSecret,
                if creds[id].apiVersion.Some? then creds[id].apiVersion.value else d.apiVersion,
                d.successUrl, d.cancelUrl, FromEnvironment, FromGeneration, Some(id)))
  {
  }

  lemma AcceptingIsResolved(o: Options, settings: Option<Settings>, creds: Credentials, id: string)
    requires AcceptingIds(creds, o.provider, o.environment) == {id} && CanOpen(creds, id)
    requires o.hasCredentials && !o.emergencyOverride
    requires settings.Some? && settings.value.enabled && HasReturnUrls(settings)
    ensures var r := Resolve(o, settings, creds);
            r.Ok? && r.value.credentialId == Some(id) && r.value.secretKey == creds[id].secretKey
  {
    NewPaymentsGoToTheAcceptingGeneration(o, settings, creds);
    var c := Resolve(o, settings, creds).value;
    assert c.credentialId.value in {id};
  }
}
