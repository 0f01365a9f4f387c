/**
 The gateway that resolves its configuration anew for every call, and every run of payments and
 refunds while generations come, go and change places.
 */
module PaymentGateway {
  import opened Wrappers
  import opened PaymentConfig
  import opened PaymentFingerprint
  import opened AdapterCache

  // --- the tables and the runs ----------------------------------------------------------

  /** What a payment was made with: the generation stamped on it, and the key its adapter held. */
  datatype Payment = Payment(credentialId: Option<string>, secretKey: string)

  datatype RefundOutcome = Sent(secretKey: string) | Refused

  datatype RefundCall = RefundCall(payment: nat, outcome: RefundOutcome)

  datatype World = World(
    creds: Credentials, settings: Option<Settings>, options: Options, cache: Cache<Config>,
    payments: seq<Payment>, refunds: seq<RefundCall>)

  datatype Event =
    | Register(id: string, generation: Generation)
    | RecordCheck(id: string, succeeded: bool, accountRef: Option<string>)
    | Activate(id: string, steppedDown: Option<string>)
    | SetAccepts(id: string, accepts: bool)
    | Retire(id: string)
    | SetOpenable(id: string, openable: bool)
    | SaveSettings(settings: Option<Settings>)
    | Restart(options: Options)
    | Checkout(accepted: bool)
    | Verify(tried: seq<string>)
    | Refund(payment: nat)

  function Start(o: Options): World {
    World(map[], None, o, [], [], [])
  }

  /** The database lets at most one generation of a provider and environment accept payments. */
  ghost predicate OneAccepting(creds: Credentials) {
    forall a, b | a in creds && b in creds && creds[a].provider == creds[b].provider
                  && creds[a].environment == creds[b].environment ::
      creds[a].status.Active? && creds[a].acceptsNewPayments && creds[b].status.Active? && creds[b].acceptsNewPayments ==> a == b
  }

  ghost function Constrained(creds: Credentials, creds': Credentials): Credentials {
    if OneAccepting(creds') then creds' else creds
  }

  /** One transaction: the old generation steps down, the new one accepts; or nothing happens. */
  ghost function Activated(creds: Credentials, id: string, steppedDown: Option<string>): Credentials {
    if steppedDown.Some? && !(steppedDown.value in creds && creds[steppedDown.value].acceptsNewPayments) then creds
    else
      var down := if steppedDown.None? then creds
                  else creds[steppedDown.value := creds[steppedDown.value].(acceptsNewPayments := false)];
      if id !in down || down[id].status.Retired? || !down[id].checkSucceeded then creds
      else Constrained(creds, down[id := down[id].(status := Active, acceptsNewPayments := true)])
  }

  ghost function CredsNext(creds: Credentials, e: Event): Credentials {
    match e
    case Register(id, g) =>
      if id in creds || !IsCredentialId(id) then creds
      else creds[id := g.(status := Pending, acceptsNewPayments := false, checkSucceeded := false)]
    case RecordCheck(id, succeeded, accountRef) =>
      if id !in creds || creds[id].status.Retired? then creds
      else creds[id := creds[id].(checkSucceeded := succeeded,
                                  accountRef := if accountRef.Some? then accountRef else creds[id].accountRef)]
    case Activate(id, steppedDown) => Activated(creds, id, steppedDown)
    case SetAccepts(id, accepts) =>
      if id !in creds || !creds[id].status.Active? then creds
      else Constrained(creds, creds[id := creds[id].(acceptsNewPayments := accepts)])
    case Retire(id) =>
      if id !in creds || creds[id].acceptsNewPayments then creds else creds[id := creds[id].(status := Retired)]
    case SetOpenable(id, openable) =>
      if id !in creds then creds else creds[id := creds[id].(openable := openable)]
    case _ => creds
  }

  /** What is tried for a notice: the same keys as for a refund, under another source mark. */
  function VerificationConfig(o: Options, creds: Credentials, id: string): Config
    requires id in creds
  {
    Config(creds[id].secretKey, creds[id].webhookSecret, OrElse(creds[id].apiVersion, DeployedVersion(o)),
           SuccessUrl(o), CancelUrl(o), FromDatabase, FromGeneration, Some(id))
  }

  function Adapter(cache: Cache<Config>, c: Config): (Cache<Config>, Config) {
    GatewayFor(Fingerprint, cache, c)
  }

  /** The configurations of these generations, as far as they can be opened. */
  function VerificationConfigs(o: Options, creds: Credentials, tried: seq<string>): seq<Config>
    decreases |tried|
  {
    if tried == [] then []
    else
      (if CanOpen(creds, tried[0]) then [VerificationConfig(o, creds, tried[0])] else [])
      + VerificationConfigs(o, creds, tried[1..])
  }

  function Verifying(o: Options, creds: Credentials, cache: Cache<Config>, tried: seq<string>): Cache<Config> {
    Serve(Fingerprint, cache, VerificationConfigs(o, creds, tried)).0
  }

  /** Of a payment stamped with a generation, the refund is that generation's or none. */
  ghost function RefundConfig(o: Options, settings: Option<Settings>, creds: Credentials, credentialId: Option<string>)
    : Result<Config, Reason>
  {
    match credentialId
    case None => Resolve(o, settings, creds)
    case Some(id) => ResolveByCredential(o, creds, id)
  }

  ghost function Next(w: World, e: Event): World {
    match e
    case SaveSettings(settings) => w.(settings := settings)
    case Restart(options) => w.(options := options, cache := [])
    case Checkout(accepted) =>
      (match Resolve(w.options, w.settings, w.creds)
       case Err(_) => w
       case Ok(c) =>
         var (cache, adapter) := Adapter(w.cache, c);
         w.(cache := cache,
            payments := if accepted then w.payments + [Payment(c.credentialId, adapter.secretKey)] else w.payments))
    case Verify(tried) => w.(cache := Verifying(w.options, w.creds, w.cache, tried))
    case Refund(i) =>
      if i >= |w.payments| then w
      else (match RefundConfig(w.options, w.settings, w.creds, w.payments[i].credentialId)
            case Err(_) => w.(refunds := w.refunds + [RefundCall(i, Refused)])
            case Ok(c) =>
              var (cache, adapter) := Adapter(w.cache, c);
              w.(cache := cache, refunds := w.refunds + [RefundCall(i, Sent(adapter.secretKey))]))
    case _ => w.(creds := CredsNext(w.creds, e))
  }

  ghost function Run(w: World, es: seq<Event>): World
    decreases |es|
  {
    if es == [] then w else Run(Next(w, es[0]), es[1..])
  }

  // --- what every run keeps -------------------------------------------------------------

  /** A configuration of a generation holds that generation's keys. */
  ghost predicate Genuine(creds: Credentials, c: Config) {
    c.credentialId.Some? ==>
      var id := c.credentialId.value;
      IsCredentialId(id) && id in creds && c.secretKey == creds[id].secretKey && c.webhookSecret == creds[id].webhookSecret
  }

  ghost predicate PaymentOk(creds: Credentials, p: Payment) {
    p.credentialId.Some? ==> p.credentialId.value in creds && p.secretKey == creds[p.credentialId.value].secretKey
  }

  ghost predicate RefundOk(payments: seq<Payment>, r: RefundCall) {
    && r.payment < |payments|
    && (payments[r.payment].credentialId.Some? && r.outcome.Sent? ==> r.outcome.secretKey == payments[r.payment].secretKey)
  }

  ghost predicate CacheGenuine(creds: Credentials, cache: Cache<Config>) {
    CacheOk(Fingerprint, cache) && forall i :: 0 <= i < |cache| ==> Genuine(creds, cache[i].adapter)
  }

  ghost predicate Inv(w: World) {
    && (forall id :: id in w.creds ==> IsCredentialId(id))
    && OneAccepting(w.creds)
    && CacheGenuine(w.creds, w.cache)
    && (forall i :: 0 <= i < |w.payments| ==> PaymentOk(w.creds, w.payments[i]))
    && (forall i :: 0 <= i < |w.refunds| ==> RefundOk(w.payments, w.refunds[i]))
  }

  /** Keys are written once and no generation is ever removed. */
  ghost predicate KeysStay(creds: Credentials, creds': Credentials) {
    forall id :: id in creds ==>
      id in creds' && creds'[id].secretKey == creds[id].secretKey && creds'[id].webhookSecret == creds[id].webhookSecret
  }

  /** Nobody accepts who did not accept before. */
  ghost predicate NoNewAccepting(creds: Credentials, creds': Credentials) {
    forall id :: id in creds' && creds'[id].status.Active? && creds'[id].acceptsNewPayments ==>
      id in creds && creds[id].status.Active? && creds[id].acceptsNewPayments
      && creds[id].provider == creds'[id].provider && creds[id].environment == creds'[id].environment
  }

  lemma NoNewKeepsOne(creds: Credentials, creds': Credentials)
    requires OneAccepting(creds) && NoNewAccepting(creds, creds')
    ensures OneAccepting(creds')
  {
  }

  lemma ActivationKeepsKeys(creds: Credentials, id: string, steppedDown: Option<string>)
    requires OneAccepting(creds)
    ensures var creds' := Activated(creds, id, steppedDown);
            KeysStay(creds, creds') && OneAccepting(creds') && creds'.Keys == creds.Keys
  {
  }

  /** One generation changes, its keys and its place excepted, and does not begin to accept. */
  lemma ChangeKeepsOne(creds: Credentials, id: string, g: Generation)
    requires OneAccepting(creds)
    requires id in creds ==>
               g.secretKey == creds[id].secretKey && g.webhookSecret == creds[id].webhookSecret
               && g.provider == creds[id].provider && g.environment == creds[id].environment
    requires g.status.Active? && g.acceptsNewPayments ==>
               id in creds && creds[id].status.Active? && creds[id].acceptsNewPayments
    ensures KeysStay(creds, creds[id := g]) && OneAccepting(creds[id := g])
  {
    NoNewKeepsOne(creds, creds[id := g]);
  }

  lemma CredsStepKeepsKeys(creds: Credentials, e: Event)
    requires OneAccepting(creds) && forall id :: id in creds ==> IsCredentialId(id)
    ensures KeysStay(creds, CredsNext(creds, e)) && OneAccepting(CredsNext(creds, e))
    ensures forall id :: id in CredsNext(creds, e) ==> IsCredentialId(id)
  {
    var creds' := CredsNext(creds, e);
    if e.Activate? {
      ActivationKeepsKeys(creds, e.id, e.steppedDown);
    } else if creds' != creds && !e.SetAccepts? {
      ChangeKeepsOne(creds, e.id, creds'[e.id]);
      assert creds' == creds[e.id := creds'[e.id]];
    }
  }

  /** The adapter handed out for a genuine configuration is of the same generation and holds its keys. */
  lemma AdapterIsOfTheGeneration(creds: Credentials, cache: Cache<Config>, c: Config)
    requires CacheGenuine(creds, cache) && Genuine(creds, c)
    ensures var (cache', adapter) := Adapter(cache, c);
            && CacheGenuine(creds, cache') && Genuine(creds, adapter) && adapter.credentialId == c.credentialId
            && (c.credentialId.Some? ==> adapter.secretKey == c.secretKey && adapter.webhookSecret == c.webhookSecret)
  {
    GatewayForKeepsCache(Fingerprint, cache, c);
    var (cache', adapter) := Adapter(cache, c);
    forall i | 0 <= i < |cache'|
      ensures Genuine(creds, cache'[i].adapter)
    {
      assert cache'[i] in cache';
    }
    var i :| 0 <= i < |cache'| && cache'[i] == Entry(Fingerprint(c), adapter);
    FingerprintNamesTheGeneration(adapter, c);
  }

  lemma KeysStayKeepsInv(w: World, creds: Credentials)
    requires Inv(w) && KeysStay(w.creds, creds) && OneAccepting(creds) && forall id :: id in creds ==> IsCredentialId(id)
    ensures Inv(w.(creds := creds))
  {
    forall i | 0 <= i < |w.cache|
      ensures Genuine(creds, w.cache[i].adapter)
    {
      assert Genuine(w.creds, w.cache[i].adapter);
    }
    forall i | 0 <= i < |w.payments|
      ensures PaymentOk(creds, w.payments[i])
    {
      assert PaymentOk(w.creds, w.payments[i]);
    }
  }

  lemma ResolvedIsGenuine(w: World)
    requires Inv(w) && Resolve(w.options, w.settings, w.creds).Ok?
    ensures Genuine(w.creds, Resolve(w.options, w.settings, w.creds).value)
  {
    NewPaymentsGoToTheAcceptingGeneration(w.options, w.settings, w.creds);
  }

  lemma {:induction false} ServingKeepsGenuine(creds: Credentials, cache: Cache<Config>, cs: seq<Config>)
    requires CacheGenuine(creds, cache) && forall i :: 0 <= i < |cs| ==> Genuine(creds, cs[i])
    ensures CacheGenuine(creds, Serve(Fingerprint, cache, cs).0)
    decreases |cs|
  {
    if cs != [] {
      ServingKeepsGenuine(creds, cache, cs[..|cs| - 1]);
      AdapterIsOfTheGeneration(creds, Serve(Fingerprint, cache, cs[..|cs| - 1]).0, cs[|cs| - 1]);
    }
  }

  lemma {:induction false} VerificationIsGenuine(o: Options, creds: Credentials, tried: seq<string>)
    requires forall id :: id in creds ==> IsCredentialId(id)
    ensures forall i :: 0 <= i < |VerificationConfigs(o, creds, tried)| ==> Genuine(creds, VerificationConfigs(o, creds, tried)[i])
    decreases |tried|
  {
    if tried != [] {
      VerificationIsGenuine(o, creds, tried[1..]);
    }
  }

  lemma VerifyingKeepsCache(o: Options, creds: Credentials, cache: Cache<Config>, tried: seq<string>)
    requires CacheGenuine(creds, cache) && forall id :: id in creds ==> IsCredentialId(id)
    ensures CacheGenuine(creds, Verifying(o, creds, cache, tried))
  {
    VerificationIsGenuine(o, creds, tried);
    ServingKeepsGenuine(creds, cache, VerificationConfigs(o, creds, tried));
  }

  lemma CheckoutKeepsInv(w: World, accepted: bool)
    requires Inv(w)
    ensures Inv(Next(w, Checkout(accepted)))
  {
    var r := Resolve(w.options, w.settings, w.creds);
    if r.Ok? {
      ResolvedIsGenuine(w);
      AdapterIsOfTheGeneration(w.creds, w.cache, r.value);
      var w' := Next(w, Checkout(accepted));
      forall i | 0 <= i < |w'.payments|
        ensures PaymentOk(w'.creds, w'.payments[i])
      {
        assert i < |w.payments| ==> PaymentOk(w.creds, w.payments[i]);
      }
      forall i | 0 <= i < |w'.refunds|
        ensures RefundOk(w'.payments, w'.refunds[i])
      {
        assert RefundOk(w.payments, w.refunds[i]);
      }
    }
  }

  lemma RefundIsGenuine(w: World, i: nat)
    requires Inv(w) && i < |w.payments|
    ensures var p := w.payments[i];
            var r := RefundConfig(w.options, w.settings, w.creds, p.credentialId);
            r.Ok? ==> Genuine(w.creds, r.value)
                      && (p.credentialId.Some? ==> r.value.credentialId == p.credentialId && r.value.secretKey == p.secretKey)
  {
    var p := w.payments[i];
    assert PaymentOk(w.creds, p);
    match p.credentialId
    case None => if RefundConfig(w.options, w.settings, w.creds, None).Ok? { ResolvedIsGenuine(w); }
    case Some(id) => RefundsResolveByGeneration(w.options, w.creds, id);
  }

  lemma OneMoreRefundKeepsInv(w: World, cache: Cache<Config>, r: RefundCall)
    requires Inv(w) && CacheGenuine(w.creds, cache) && RefundOk(w.payments, r)
    ensures Inv(w.(cache := cache, refunds := w.refunds + [r]))
  {
    var refunds := w.refunds + [r];
    forall k | 0 <= k < |refunds|
      ensures RefundOk(w.payments, refunds[k])
    {
      assert k < |w.refunds| ==> RefundOk(w.payments, w.refunds[k]);
    }
  }

  lemma RefundKeepsInv(w: World, i: nat)
    requires Inv(w)
    ensures Inv(Next(w, Refund(i)))
  {
    if i < |w.payments| {
      var r := RefundConfig(w.options, w.settings, w.creds, w.payments[i].credentialId);
      RefundIsGenuine(w, i);
      if r.Ok? {
        AdapterIsOfTheGeneration(w.creds, w.cache, r.value);
        var (cache, adapter) := Adapter(w.cache, r.value);
        OneMoreRefundKeepsInv(w, cache, RefundCall(i, Sent(adapter.secretKey)));
      } else {
        OneMoreRefundKeepsInv(w, w.cache, RefundCall(i, Refused));
      }
    }
  }

  lemma StepKeepsInv(w: World, e: Event)
    requires Inv(w)
    ensures Inv(Next(w, e))
  {
    match e
    case Checkout(accepted) => CheckoutKeepsInv(w, accepted);
    case Refund(i) => RefundKeepsInv(w, i);
    case Verify(tried) => VerifyingKeepsCache(w.options, w.creds, w.cache, tried);
    case SaveSettings(_) =>
    case Restart(_) =>
    case _ =>
      CredsStepKeepsKeys(w.creds, e);
      KeysStayKeepsInv(w, CredsNext(w.creds, e));
  }

  lemma {:induction false} RunKeepsInv(w: World, es: seq<Event>)
    requires Inv(w)
    ensures Inv(Run(w, es))
    decreases |es|
  {
    if es != [] {
      StepKeepsInv(w, es[0]);
      RunKeepsInv(Next(w, es[0]), es[1..]);
    }
  }

  // --- refunds --------------------------------------------------------------------------

  /**
   Through every run of registrations, checks, activations, retirements, stops, restarts with
   and without the override and keys that open or do not, with whatever look-alikes among the
   kept adapters: a payment stamped with a generation was made with that generation's key, and
   is refunded with that very key or not at all.
   */
  lemma RefundsUseTheirOwnKeys(o: Options, es: seq<Event>)
    ensures var w := Run(Start(o), es);
            && (forall i :: 0 <= i < |w.payments| ==> PaymentOk(w.creds, w.payments[i]))
            && (forall k :: 0 <= k < |w.refunds| ==> RefundOk(w.payments, w.refunds[k]))
  {
    RunKeepsInv(Start(o), es);
  }

  /** And it is sent exactly when that generation can be opened: a stop or a retirement does not block it. */
  lemma RefundIsSentExactlyWhenItsGenerationOpens(w: World, i: nat)
    requires Inv(w) && i < |w.payments| && w.payments[i].credentialId.Some?
    ensures var id := w.payments[i].credentialId.value;
            var w' := Next(w, Refund(i));
            w'.refunds == w.refunds + [RefundCall(
                 i, if w.options.hasCredentials && CanOpen(w.creds, id) then Sent(w.creds[id].secretKey) else Refused)]
  {
    RefundIsGenuine(w, i);
    var id := w.payments[i].credentialId.value;
    RefundsResolveByGeneration(w.options, w.creds, id);
    var r := RefundConfig(w.options, w.settings, w.creds, Some(id));
    if r.Ok? {
      AdapterIsOfTheGeneration(w.creds, w.cache, r.value);
    }
  }

  lemma KeysOpenAsBefore(creds: Credentials, e: Event, id: string)
    requires e.Retire? || e.Activate? || e.SetAccepts?
    requires id in creds
    ensures var creds' := CredsNext(creds, e);
            id in creds' && creds'[id].secretKey == creds[id].secretKey && creds'[id].openable == creds[id].openable
  {
  }

  /** Neither retiring nor stopping nor handing over changes what a refund comes to. */
  lemma StoppingAndRetiringLeaveRefundsAlone(w: World, e: Event, i: nat)
    requires Inv(w) && (e.Retire? || e.SaveSettings? || e.Activate? || e.SetAccepts?)
    requires i < |w.payments| && w.payments[i].credentialId.Some?
    ensures Next(Next(w, e), Refund(i)).refunds == Next(w, Refund(i)).refunds
  {
    StepKeepsInv(w, e);
    assert PaymentOk(w.creds, w.payments[i]);
    if !e.SaveSettings? {
      KeysOpenAsBefore(w.creds, e, w.payments[i].credentialId.value);
    }
    RefundIsSentExactlyWhenItsGenerationOpens(w, i);
    RefundIsSentExactlyWhenItsGenerationOpens(Next(w, e), i);
  }

  // --- what happens to generations ------------------------------------------------------

  /** A generation comes in pending, is checked until it is retired, and retires only while it does not accept. */
  lemma GenerationsMoveExactly(creds: Credentials, id: string, g: Generation, succeeded: bool, accountRef: Option<string>)
    ensures CredsNext(creds, RecordCheck(id, succeeded, accountRef)) ==
            if id !in creds || creds[id].status == Retired then creds
            else creds[id := creds[id].(checkSucceeded := succeeded,
                                        accountRef := if accountRef == None then creds[id].accountRef else accountRef)]
    ensures CredsNext(creds, Register(id, g)) ==
            if id in creds || !IsCredentialId(id) then creds
            else creds[id := g.(status := Pending, acceptsNewPayments := false, checkSucceeded := false)]
    ensures CredsNext(creds, Retire(id)) ==
            if id in creds && !creds[id].acceptsNewPayments then creds[id := creds[id].(status := Retired)] else creds
  {
  }

  /** Nobody else accepts in the place of this generation. */
  ghost predicate NobodyElseAccepts(creds: Credentials, id: string)
    requires id in creds
  {
    forall other :: other in creds && Accepting(creds[other], creds[id].provider, creds[id].environment) ==> other == id
  }

  lemma SettingKeepsOne(creds: Credentials, id: string, accepts: bool)
    requires OneAccepting(creds) && id in creds && (accepts ==> NobodyElseAccepts(creds, id))
    ensures OneAccepting(creds[id := creds[id].(acceptsNewPayments := accepts)])
  {
    var creds' := creds[id := creds[id].(acceptsNewPayments := accepts)];
    forall other | other in creds' && creds'[other].status.Active? && creds'[other].acceptsNewPayments && other != id
      ensures accepts ==> !(creds[other].provider == creds[id].provider && creds[other].environment == creds[id].environment)
    {
    }
  }

  /** It accepts, or not any more, as it is told, while it is active and alone. */
  lemma AcceptingIsSetExactly(creds: Credentials, id: string, accepts: bool)
    requires OneAccepting(creds)
    ensures id in creds && creds[id].status == Active && (accepts ==> NobodyElseAccepts(creds, id)) ==>
              CredsNext(creds, SetAccepts(id, accepts)) == creds[id := creds[id].(acceptsNewPayments := accepts)]
    ensures id !in creds || creds[id].status != Active ==> CredsNext(creds, SetAccepts(id, accepts)) == creds
  {
    if id in creds && (accepts ==> NobodyElseAccepts(creds, id)) {
      SettingKeepsOne(creds, id, accepts);
    }
  }

  /** What is tried for a notice is what a refund of that generation would use, but for where it is said to come from. */
  lemma NoticesAreTriedWithRefundKeys(o: Options, creds: Credentials, id: string)
    requires o.hasCredentials && id in creds && creds[id].openable
    ensures Ok(VerificationConfig(o, creds, id).(settingsSource := FromEnvironment)) == ResolveByCredential(o, creds, id)
  {
  }

  // --- handing over ---------------------------------------------------------------------

  /** The accepting generation of the same place, if any, is the one to step down. */
  ghost predicate StepsDownFor(creds: Credentials, id: string, steppedDown: Option<string>)
    requires id in creds
  {
    && (steppedDown.Some? ==> steppedDown.value in creds && creds[steppedDown.value].acceptsNewPayments)
    && AcceptingIds(creds, creds[id].provider, creds[id].environment) <= {id} + (if steppedDown.Some? then {steppedDown.value} else {})
  }

  /** A checked generation that is activated is from then on the one that accepts, and keeps its keys. */
  lemma ActivationHandsOver(creds: Credentials, id: string, steppedDown: Option<string>)
    requires OneAccepting(creds) && id in creds && creds[id].status != Retired && creds[id].checkSucceeded
    requires StepsDownFor(creds, id, steppedDown)
    ensures var creds' := Activated(creds, id, steppedDown);
            && AcceptingIds(creds', creds[id].provider, creds[id].environment) == {id}
            && creds'.Keys == creds.Keys && creds'[id] == creds[id].(status := Active, acceptsNewPayments := true)
            && (forall other :: other in creds && other != id ==>
                  creds'[other] == if steppedDown == Some(other) then creds[other].(acceptsNewPayments := false) else creds[other])
  {
    var down := if steppedDown.None? then creds
                else creds[steppedDown.value := creds[steppedDown.value].(acceptsNewPayments := false)];
    var creds' := down[id := down[id].(status := Active, acceptsNewPayments := true)];
    forall a, b | a in creds' && b in creds' && creds'[a].provider == creds'[b].provider
                  && creds'[a].environment == creds'[b].environment
                  && creds'[a].status.Active? && creds'[a].acceptsNewPayments && creds'[b].status.Active? && creds'[b].acceptsNewPayments
      ensures a == b
    {
      AcceptsOnlyIfBefore(creds, id, steppedDown, creds', a);
      AcceptsOnlyIfBefore(creds, id, steppedDown, creds', b);
    }
    assert OneAccepting(creds');
    forall other | other in AcceptingIds(creds', creds[id].provider, creds[id].environment)
      ensures other == id
    {
      AcceptsOnlyIfBefore(creds, id, steppedDown, creds', other);
    }
  }

  lemma AcceptsOnlyIfBefore(creds: Credentials, id: string, steppedDown: Option<string>, creds': Credentials, other: string)
    requires id in creds && StepsDownFor(creds, id, steppedDown) && other in creds'
    requires var down := if steppedDown.None? then creds
                         else creds[steppedDown.value := creds[steppedDown.value].(acceptsNewPayments := false)];
             creds' == down[id := down[id].(status := Active, acceptsNewPayments := true)]
    requires creds'[other].status.Active? && creds'[other].acceptsNewPayments
    ensures other == id
            || (creds[other] == creds'[other] && other in creds && steppedDown != Some(other)
                && !(creds[other].provider == creds[id].provider && creds[other].environment == creds[id].environment))
  {
    assert other in creds && Accepting(creds[other], creds[id].provider, creds[id].environment) ==>
             other in AcceptingIds(creds, creds[id].provider, creds[id].environment);
  }

  /** A payment is made with the keys of the one accepting generation and stamped with it. */
  lemma NextPaymentIsOf(w: World, id: string)
    requires Inv(w) && AcceptingIds(w.creds, w.options.provider, w.options.environment) == {id} && CanOpen(w.creds, id)
    requires w.options.hasCredentials && !w.options.emergencyOverride
    requires w.settings.Some? && w.settings.value.enabled && HasReturnUrls(w.settings)
    ensures Next(w, Checkout(true)).payments == w.payments + [Payment(Some(id), w.creds[id].secretKey)]
  {
    AcceptingIsResolved(w.options, w.settings, w.creds, id);
    ResolvedIsGenuine(w);
    PaidWithResolved(w, Resolve(w.options, w.settings, w.creds).value);
  }

  lemma PaidWithResolved(w: World, c: Config)
    requires Inv(w) && Resolve(w.options, w.settings, w.creds) == Ok(c) && c.credentialId.Some? && Genuine(w.creds, c)
    ensures Next(w, Checkout(true)).payments == w.payments + [Payment(c.credentialId, c.secretKey)]
  {
    AdapterIsOfTheGeneration(w.creds, w.cache, c);
  }

  /** And the next payment is made with its keys and stamped with it. */
  lemma PaymentsFollowActivation(w: World, id: string, steppedDown: Option<string>)
    requires Inv(w) && id in w.creds && w.creds[id].status != Retired && w.creds[id].checkSucceeded && w.creds[id].openable
    requires StepsDownFor(w.creds, id, steppedDown)
    requires w.creds[id].provider == w.options.provider && w.creds[id].environment == w.options.environment
    requires w.options.hasCredentials && !w.options.emergencyOverride
    requires w.settings.Some? && w.settings.value.enabled && HasReturnUrls(w.settings)
    ensures var w' := Next(Next(w, Activate(id, steppedDown)), Checkout(true));
            w'.payments == w.payments + [Payment(Some(id), w.creds[id].secretKey)]
  {
    ActivationHandsOver(w.creds, id, steppedDown);
    StepKeepsInv(w, Activate(id, steppedDown));
    NextPaymentIsOf(Next(w, Activate(id, steppedDown)), id);
  }

  // --- the gateway ----------------------------------------------------------------------

  datatype GatewayError =
    | ProviderDisabled | CredentialCheckRequired | SetupIncomplete | RefundCredentialUnavailable | SignatureInvalid
    | FromProvider(code: string)

  function ReasonToError(reason: Reason): GatewayError {
    match reason
    case Disabled => ProviderDisabled
    case NoCredential => CredentialCheckRequired
    case Incomplete => SetupIncomplete
  }

  /** What an adapter comes to: its provider's answer, by the configuration it was built from. */
  type Answers<T> = Config -> Result<T, GatewayError>

  class PaymentTables {
    var creds: Credentials
    var settings: Option<Settings>

    constructor ()
      ensures creds == map[] && settings == None
    {
      creds, settings := map[], None;
    }
  }

  /** `payments` and `refunds` are what was made with it so far; the gateway itself keeps only adapters. */
  class ResolvingPaymentGateway {
    const tables: PaymentTables
    const options: Options
    const mark: Marker<Config>
    var cached: Cache<Config>
    var verified: seq<string>
    ghost var payments: seq<Payment>
    ghost var refunds: seq<RefundCall>

    constructor (tables: PaymentTables, options: Options)
      ensures this.tables == tables && this.options == options && mark == Fingerprint && cached == [] && verified == []
      ensures View() == World(tables.creds, tables.settings, options, [], [], [])
    {
      this.tables, this.options, mark, cached, verified := tables, options, Fingerprint, [], [];
      payments, refunds := [], [];
    }

    ghost function View(): World
      reads this, tables
    {
      World(tables.creds, tables.settings, options, cached, payments, refunds)
    }

    ghost function Current(): Result<Config, Reason>
      reads this, tables
    {
      Resolve(options, tables.settings, tables.creds)
    }

    method AcceptingKeys() returns (r: Result<Keys, Reason>)
      requires !options.emergencyOverride && options.hasCredentials
      ensures r == ResolveKeys(options, tables.creds)
    {
      var ids := AcceptingIds(tables.creds, options.provider, options.environment);
      if |ids| != 1 {
        return Err(NoCredential);
      }
      var id :| id in ids;
      SingletonIs(ids, id);
      assert AcceptingGeneration(tables.creds, options.provider, options.environment) == Some(id);
      return if CanOpen(tables.creds, id) then Ok(OpenedKeys(tables.creds, id)) else Err(NoCredential);
    }

    method ResolveNow() returns (r: Result<Config, Reason>)
      ensures r == Current()
    {
      if tables.settings.Some? && !tables.settings.value.enabled {
        return Err(Disabled);
      }
      var keys: Result<Keys, Reason>;
      if options.emergencyOverride {
        if options.deployment.None? || options.deployment.value.secretKey == "" || options.deployment.value.webhookSecret == "" {
          return Err(Incomplete);
        }
        var d := options.deployment.value;
        keys := Ok(Keys(d.secretKey, d.webhookSecret, if d.apiVersion == "" then None else Some(d.apiVersion), FromDeployment, None));
      } else if !options.hasCredentials {
        return Err(NoCredential);
      } else {
        keys := AcceptingKeys();
      }
      if keys.Err? {
        return Err(keys.error);
      }
      return WithReturnUrls(options, tables.settings, keys.value);
    }

    method GatewayForConfig(c: Config) returns (adapter: Config)
      modifies this`cached
      ensures (cached, adapter) == GatewayFor(mark, old(cached), c)
    {
      var hit := Lookup(cached, mark(c));
      if hit.Some? {
        return hit.value;
      }
      if |cached| >= MAX_CACHED_GATEWAYS {
        cached := cached[1..];
      }
      cached := cached + [Entry(mark(c), c)];
      return c;
    }

    /** The session, and the generation stamped on it. */
    method CreateCheckoutSession(answers: Answers<string>) returns (r: Result<(string, Option<string>), GatewayError>)
      modifies this`cached, this`payments
      ensures mark == Fingerprint ==> View() == Next(old(View()), Checkout(r.Ok?))
      ensures Current().Err? ==>
                cached == old(cached)
                && r == Err(match Current().error
                            case Disabled => ProviderDisabled
                            case NoCredential => CredentialCheckRequired
                            case Incomplete => SetupIncomplete)
      ensures match Current()
              case Err(reason) => cached == old(cached) && r == Err(ReasonToError(reason))
              case Ok(c) =>
                var (kept, adapter) := GatewayFor(mark, old(cached), c);
                cached == kept && r == match answers(adapter)
                                       case Err(error) => Err(error)
                                       case Ok(session) => Ok((session, c.credentialId))
    {
      var resolved := ResolveNow();
      if resolved.Err? {
        return Err(ReasonToError(resolved.error));
      }
      var adapter := GatewayForConfig(resolved.value);
      var created := answers(adapter);
      if created.Err? {
        return Err(created.error);
      }
      payments := payments + [Payment(resolved.value.credentialId, adapter.secretKey)];
      return Ok((created.value, resolved.value.credentialId));
    }

    /** A stamped payment whose generation cannot be opened is refused, never sent elsewhere. `payment` is which one it is. */
    method RefundPayment(credentialId: Option<string>, answers: Answers<string>, ghost payment: nat)
      returns (r: Result<string, GatewayError>)
      modifies this`cached, this`refunds
      ensures mark == Fingerprint && payment < |payments| && payments[payment].credentialId == credentialId ==>
                View() == Next(old(View()), Refund(payment))
      ensures match RefundConfig(options, tables.settings, tables.creds, credentialId)
              case Err(reason) =>
                cached == old(cached)
                && r == Err(if credentialId.None? then ReasonToError(reason) else RefundCredentialUnavailable)
              case Ok(c) => var (kept, adapter) := GatewayFor(mark, old(cached), c); cached == kept && r == answers(adapter)
    {
      var config: Config;
      if credentialId.None? {
        var current := ResolveNow();
        if current.Err? {
          refunds := refunds + [RefundCall(payment, Refused)];
          return Err(ReasonToError(current.error));
        }
        config := current.value;
      } else {
        var original := ResolveByCredential(options, tables.creds, credentialId.value);
        if original.Err? {
          refunds := refunds + [RefundCall(payment, Refused)];
          return Err(RefundCredentialUnavailable);
        }
        config := original.value;
      }
      var adapter := GatewayForConfig(config);
      refunds := refunds + [RefundCall(payment, Sent(adapter.secretKey))];
      return answers(adapter);
    }

    /** The configurations tried for a notice: those given, or if there are none the current one. */
    ghost function Candidates(given: seq<Config>): Result<seq<Config>, GatewayError>
      reads this, tables
    {
      if given != [] then Ok(given)
      else match Current()
        case Err(reason) => Err(ReasonToError(reason))
        case Ok(c) => Ok([c])
    }

    method VerificationCandidates(given: seq<Config>) returns (r: Result<seq<Config>, GatewayError>)
      ensures r == Candidates(given)
    {
      if given != [] {
        return Ok(given);
      }
      var resolved := ResolveNow();
      return match resolved
        case Err(reason) => Err(ReasonToError(reason))
        case Ok(c) => Ok([c]);
    }

    /** `asked` are the adapters that were asked, one for each candidate tried. */
    method TryInOrder<Fact>(candidates: seq<Config>, answers: Answers<Fact>)
      returns (r: Result<(Fact, Option<string>), GatewayError>, ghost asked: seq<Config>)
      modifies this`cached
      ensures AskedInOrder(candidates, asked, answers, r)
      ensures ServedSoFar(mark, old(cached), candidates, |asked|, cached, asked)
    {
      var lastError := SignatureInvalid;
      asked := [];
      for i := 0 to |candidates|
        invariant |asked| == i && AllRefused(asked, answers, lastError)
        invariant ServedSoFar(mark, old(cached), candidates, i, cached, asked)
      {
        ServeOneMore(mark, old(cached), candidates, i, cached, asked);
        var adapter := GatewayForConfig(candidates[i]);
        var parsed := answers(adapter);
        asked := asked + [adapter];
        if parsed.Ok? {
          return Ok((parsed.value, candidates[i].credentialId)), asked;
        }
        lastError := parsed.error;
      }
      return Err(lastError), asked;
    }

    /**
     The candidates are tried in order until one accepts; a notice is stamped with the candidate
     that accepted it, and if that is a generation, it is recorded as verified by it.
     */
    method VerifyAndParseWebhook<Fact>(given: seq<Config>, answers: Answers<Fact>)
      returns (r: Result<(Fact, Option<string>), GatewayError>, ghost asked: seq<Config>)
      modifies this`cached, this`verified
      ensures match Candidates(given)
              case Err(error) => r == Err(error) && asked == [] && cached == old(cached)
              case Ok(candidates) =>
                AskedInOrder(candidates, asked, answers, r) && ServedSoFar(mark, old(cached), candidates, |asked|, cached, asked)
      ensures verified == old(verified) + if r.Ok? && r.value.1.Some? then [r.value.1.value] else []
    {
      asked := [];
      var candidates := VerificationCandidates(given);
      if candidates.Err? {
        return Err(candidates.error), [];
      }
      r, asked := TryInOrder(candidates.value, answers);
      if r.Ok? && r.value.1.Some? {
        verified := verified + [r.value.1.value];
      }
    }
  }

  /** So far every adapter asked has refused, the last one with this error. */
  ghost predicate AllRefused<Fact>(asked: seq<Config>, answers: Answers<Fact>, lastError: GatewayError) {
    && (forall k :: 0 <= k < |asked| ==> answers(asked[k]).Err?)
    && (if asked == [] then lastError == SignatureInvalid else answers(asked[|asked| - 1]) == Err(lastError))
  }

  /** All adapters asked but the last refused, and the result is the last one's, stamped with its candidate. */
  ghost predicate AskedInOrder<Fact>(
    candidates: seq<Config>, asked: seq<Config>, answers: Answers<Fact>, r: Result<(Fact, Option<string>), GatewayError>)
  {
    && |asked| <= |candidates|
    && (forall i :: 0 <= i < |asked| - 1 ==> answers(asked[i]).Err?)
    && match r
       case Ok(accepted) =>
         asked != [] && answers(asked[|asked| - 1]).Ok?
         && accepted == (answers(asked[|asked| - 1]).value, candidates[|asked| - 1].credentialId)
       case Err(error) => |asked| == |candidates| && AllRefused(asked, answers, error)
  }

  /** A notice that asks the adapters of these generations leaves the cache that the step of the machine leaves. */
  lemma AskingIsAStep(w: World, mark: Marker<Config>, candidates: seq<Config>, tried: seq<string>)
    requires mark == Fingerprint && candidates == VerificationConfigs(w.options, w.creds, tried)
    ensures Next(w, Verify(tried)) == w.(cache := Serve(mark, w.cache, candidates).0)
  {
    var cache := Verifying(w.options, w.creds, w.cache, tried);
    assert cache == Serve(mark, w.cache, candidates).0;
    VerifyMovesCache(w, tried);
  }

  lemma VerifyMovesCache(w: World, tried: seq<string>)
    ensures Next(w, Verify(tried)) == w.(cache := Verifying(w.options, w.creds, w.cache, tried))
  {
  }
}
