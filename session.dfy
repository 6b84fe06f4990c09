/**
 * The bridge's session as a state machine over values: an optional client
 * handle and an optional current user, the transitions `configure` and
 * `addFeatureFlagChangeListener` make, the calls they issue into the
 * LaunchDarkly SDK, and the read-only flag evaluations.
 */
module BridgeSession {

  import opened Wrappers
  import opened ReadableMap
  import opened LaunchDarklyUser

  /** What `new LDConfig.Builder().setMobileKey(apiKey).build()` records. */
  datatype Config = Config(mobileKey: string)

  /** The host Android application, an identity the model only passes on. */
  datatype Application = Application(id: nat)

  /** The current React activity, whose application may itself be null. */
  datatype Activity = Activity(application: Option<Application>)

  /** The client handle `LDClient.init(application, config, user, 0)` returns,
      recorded by the arguments it was created with. */
  datatype ClientHandle = ClientHandle(application: Application, config: Config, initialUser: User, startWaitSeconds: int)

  /** A call the bridge makes into the SDK that changes the SDK's own state. */
  datatype SdkCall =
    | Init(handle: ClientHandle)
    | Identify(user: User)
    | RegisterListener(flagName: string)

  /** How the promise of `configure` settles: resolved with the `email` entry of
      the result map, or rejected with an error message. */
  datatype Settlement = Resolved(email: JString) | Rejected(message: string)

  const ApplicationNullMessage: string := "Couldn't init RNLaunchDarklyModule cause application was null"

  /** The SDK's flag evaluation, which the bridge only calls: a handle's
      `boolVariation(name, default)` and `stringVariation(name, default)`. The
      SDK's own state (the user it last identified, the flags it fetched) is
      folded into these functions. */
  datatype Sdk = Sdk(boolVariation: (ClientHandle, string, bool) -> bool,
                     stringVariation: (ClientHandle, string, string) -> string)

  /** The fields `ldClient` and `user`. */
  datatype State = State(client: Option<ClientHandle>, user: Option<User>)

  /** A freshly constructed bridge: neither field set. */
  const Initial: State := State(None, None)

  /** The session invariant: a client is only ever held together with a user. */
  predicate Inv(s: State)
  {
    s.client.Some? ==> s.user.Some?
  }

  /** The application of the current activity, when both exist. */
  function ApplicationOf(activity: Option<Activity>): Option<Application>
  {
    if activity.Some? then activity.value.application else None
  }

  /** The new state, the promise's settlement and the SDK calls of one `configure`. */
  datatype ConfigureStep = ConfigureStep(state: State, settlement: Settlement, calls: seq<SdkCall>)

  /** `configure(apiKey, options)` with the given current activity. */
  function Configure(s: State, apiKey: string, options: Options, activity: Option<Activity>): (r: ConfigureStep)
    ensures r.state.user == Some(UserFromOptions(options))
    ensures r.settlement.Resolved? ==> r.settlement.email == GetString(options, "email")
    ensures r.settlement.Rejected? ==> r.state.client == s.client && r.calls == []
    ensures r.settlement.Resolved? ==> r.state.client.Some? && |r.calls| == 1
    ensures r.state.client != s.client ==> r.state.client.Some? && r.calls == [Init(r.state.client.value)]
  {
    var user := UserFromOptions(options);
    var email := GetString(options, "email");
    if s.user.Some? && s.client.Some? then
      ConfigureStep(State(s.client, Some(user)), Resolved(email), [Identify(user)])
    else
      match ApplicationOf(activity)
      case Some(application) =>
        var handle := ClientHandle(application, Config(apiKey), user, 0);
        ConfigureStep(State(Some(handle), Some(user)), Resolved(email), [Init(handle)])
      case None =>
        ConfigureStep(State(s.client, Some(user)), Rejected(ApplicationNullMessage), [])
  }

  /** The SDK calls of `addFeatureFlagChangeListener(flagName)`; `clientReady`
      says whether the SDK's global `LDClient.get()` returns a client or throws.
      The state is left as it is either way, and the exception is swallowed. */
  function ListenerCalls(flagName: string, clientReady: bool): (r: seq<SdkCall>)
    ensures r != [] <==> clientReady
    ensures forall i :: 0 <= i < |r| ==> r[i] == RegisterListener(flagName)
    ensures |r| <= 1
  {
    if clientReady then [RegisterListener(flagName)] else []
  }

  /** `boolVariation(flagName)`: `false` without a client, otherwise the SDK's
      evaluation with default `false`. */
  function BoolVariation(s: State, sdk: Sdk, flagName: string): (r: bool)
    ensures s.client.None? ==> !r
  {
    match s.client
    case None => false
    case Some(handle) => sdk.boolVariation(handle, flagName, false)
  }

  /** `stringVariation(flagName, fallback)`: `""` without a client, otherwise the
      SDK's evaluation with the caller's fallback as default. */
  function StringVariation(s: State, sdk: Sdk, flagName: string, fallback: string): (r: string)
    ensures s.client.None? ==> r == ""
  {
    match s.client
    case None => ""
    case Some(handle) => sdk.stringVariation(handle, flagName, fallback)
  }

  /** An operation of the bridge that changes state or calls into the SDK. */
  datatype Op =
    | ConfigureOp(apiKey: string, options: Options, activity: Option<Activity>)
    | ListenOp(flagName: string, clientReady: bool)

  /** The state after a run of operations and every SDK call made on the way. */
  datatype Run = Run(state: State, calls: seq<SdkCall>)

  function Step(s: State, op: Op): Run
  {
    match op
    case ConfigureOp(apiKey, options, activity) =>
      var step := Configure(s, apiKey, options, activity);
      Run(step.state, step.calls)
    case ListenOp(flagName, clientReady) => Run(s, ListenerCalls(flagName, clientReady))
  }

  function Execute(s: State, ops: seq<Op>): Run
    decreases |ops|
  {
    if ops == [] then Run(s, [])
    else
      var first := Step(s, ops[0]);
      var rest := Execute(first.state, ops[1..]);
      Run(rest.state, first.calls + rest.calls)
  }

  /** How many times a sequence of calls initialises a client. */
  function InitCount(calls: seq<SdkCall>): nat
  {
    if calls == [] then 0 else (if calls[0].Init? then 1 else 0) + InitCount(calls[1..])
  }

  lemma {:induction false} InitCountAppend(a: seq<SdkCall>, b: seq<SdkCall>)
    ensures InitCount(a + b) == InitCount(a) + InitCount(b)
  {
    if a == [] {
      assert a + b == b;
    } else {
      assert (a + b)[1..] == a[1..] + b;
      InitCountAppend(a[1..], b);
    }
  }

  // ---------------------------------------------------------------------------
  // configure

  /** Every `configure`, from any state, leaves a user behind, so the invariant
      holds after it. */
  lemma ConfigureEstablishesInv(s: State, apiKey: string, options: Options, activity: Option<Activity>)
    ensures Configure(s, apiKey, options, activity).state.user == Some(UserFromOptions(options))
    ensures Inv(Configure(s, apiKey, options, activity).state)
  {
  }

  /** With a client and a user already there, `configure` keeps the handle,
      replaces the user, identifies the new user and resolves: it never
      initialises again. */
  lemma ConfigureWithClient(s: State, apiKey: string, options: Options, activity: Option<Activity>)
    requires Inv(s) && s.client.Some?
    ensures var step := Configure(s, apiKey, options, activity);
      && step.state == State(s.client, Some(UserFromOptions(options)))
      && step.calls == [Identify(UserFromOptions(options))]
      && step.settlement == Resolved(GetString(options, "email"))
  {
  }

  /** The first `configure` with an application initialises a client for the new
      user with a zero start-up wait, and resolves. */
  lemma FirstConfigureWithApplication(s: State, apiKey: string, options: Options, activity: Option<Activity>)
    requires s.client.None? && ApplicationOf(activity).Some?
    ensures var step := Configure(s, apiKey, options, activity);
      var handle := ClientHandle(ApplicationOf(activity).value, Config(apiKey), UserFromOptions(options), 0);
      && step.state == State(Some(handle), Some(UserFromOptions(options)))
      && step.calls == [Init(handle)]
      && step.settlement == Resolved(GetString(options, "email"))
  {
  }

  /** The first `configure` without an application rejects, leaves the client
      unset and calls nothing, yet the new user is stored all the same. */
  lemma FirstConfigureWithoutApplication(s: State, apiKey: string, options: Options, activity: Option<Activity>)
    requires s.client.None? && ApplicationOf(activity).None?
    ensures var step := Configure(s, apiKey, options, activity);
      && step.state == State(None, Some(UserFromOptions(options)))
      && step.calls == []
      && step.settlement == Rejected(ApplicationNullMessage)
  {
  }

  /** `configure` rejects exactly when no client exists and no application is
      available, and every resolution carries the `email` option. */
  lemma ConfigureSettlement(s: State, apiKey: string, options: Options, activity: Option<Activity>)
    requires Inv(s)
    ensures var step := Configure(s, apiKey, options, activity);
      && (step.settlement.Rejected? <==> s.client.None? && ApplicationOf(activity).None?)
      && (step.settlement.Resolved? ==> step.settlement.email == GetString(options, "email"))
  {
  }

  // ---------------------------------------------------------------------------
  // Runs of operations

  /** The invariant holds after every run that starts where it holds. */
  lemma {:induction false} ExecutePreservesInv(s: State, ops: seq<Op>)
    requires Inv(s)
    ensures Inv(Execute(s, ops).state)
    decreases |ops|
  {
    if ops != [] {
      var first := Step(s, ops[0]);
      if ops[0].ConfigureOp? {
        ConfigureEstablishesInv(s, ops[0].apiKey, ops[0].options, ops[0].activity);
      }
      ExecutePreservesInv(first.state, ops[1..]);
    }
  }

  /** Once a client exists, no run ever replaces or drops it. */
  lemma {:induction false} HandleNeverReplaced(s: State, ops: seq<Op>)
    requires Inv(s) && s.client.Some?
    ensures Execute(s, ops).state.client == s.client
    decreases |ops|
  {
    if ops != [] {
      var first := Step(s, ops[0]);
      if ops[0].ConfigureOp? {
        ConfigureWithClient(s, ops[0].apiKey, ops[0].options, ops[0].activity);
      }
      HandleNeverReplaced(first.state, ops[1..]);
    }
  }

  /** A run initialises a client once if it ends with a client it did not start
      with, and never otherwise. */
  lemma {:induction false} InitialisedAtMostOnce(s: State, ops: seq<Op>)
    requires Inv(s)
    ensures InitCount(Execute(s, ops).calls) ==
      if s.client.None? && Execute(s, ops).state.client.Some? then 1 else 0
    decreases |ops|
  {
    if ops != [] {
      var first := Step(s, ops[0]);
      var rest := Execute(first.state, ops[1..]);
      assert Execute(s, ops) == Run(rest.state, first.calls + rest.calls);
      InitCountAppend(first.calls, rest.calls);
      assert Inv(first.state) by {
        if ops[0].ConfigureOp? {
          ConfigureEstablishesInv(s, ops[0].apiKey, ops[0].options, ops[0].activity);
        }
      }
      InitialisedAtMostOnce(first.state, ops[1..]);
      if ops[0].ListenOp? {
        assert InitCount(first.calls) == 0 by {
          if first.calls != [] {
            assert first.calls[1..] == [];
          }
        }
      } else if s.client.Some? {
        ConfigureWithClient(s, ops[0].apiKey, ops[0].options, ops[0].activity);
        assert first.calls[1..] == [];
      } else if ApplicationOf(ops[0].activity).Some? {
        FirstConfigureWithApplication(s, ops[0].apiKey, ops[0].options, ops[0].activity);
        HandleNeverReplaced(first.state, ops[1..]);
        assert first.calls[1..] == [];
        assert InitCount(first.calls) == 1;
      } else {
        FirstConfigureWithoutApplication(s, ops[0].apiKey, ops[0].options, ops[0].activity);
        assert first.state.client.None? && first.calls == [];
      }
    }
  }

  /** From a fresh bridge, any run initialises a client at most once. */
  lemma FreshBridgeInitialisesAtMostOnce(ops: seq<Op>)
    ensures InitCount(Execute(Initial, ops).calls) <= 1
  {
    InitialisedAtMostOnce(Initial, ops);
  }

  /** Registering a listener never changes the session, whether or not the SDK's
      global client exists. */
  lemma ListenerKeepsState(s: State, flagName: string, clientReady: bool)
    ensures Step(s, ListenOp(flagName, clientReady)).state == s
    ensures Step(s, ListenOp(flagName, clientReady)).calls ==
      if clientReady then [RegisterListener(flagName)] else []
  {
  }

  // ---------------------------------------------------------------------------
  // Flag evaluation

  /** Without a client, `boolVariation` yields `false` and `stringVariation`
      yields `""` whatever fallback is passed; with one, both delegate to the SDK,
      `boolVariation` with default `false` and `stringVariation` with the fallback. */
  lemma VariationDefaults(s: State, sdk: Sdk, flagName: string, fallback: string)
    ensures s.client.None? ==> !BoolVariation(s, sdk, flagName) && StringVariation(s, sdk, flagName, fallback) == ""
    ensures s.client.Some? ==> BoolVariation(s, sdk, flagName) == sdk.boolVariation(s.client.value, flagName, false)
    ensures s.client.Some? ==> StringVariation(s, sdk, flagName, fallback) == sdk.stringVariation(s.client.value, flagName, fallback)
  {
  }

  // ---------------------------------------------------------------------------
  // Scenarios

  /** A first `configure` that finds no activity, or an activity without an
      application, rejects and leaves the bridge answering with defaults. */
  lemma RejectedConfigureKeepsDefaults(
    apiKey: string, options: Options, activity: Option<Activity>, sdk: Sdk, flagName: string, fallback: string)
    requires ApplicationOf(activity).None?
    ensures var step := Configure(Initial, apiKey, options, activity);
      && step.settlement.Rejected?
      && !BoolVariation(step.state, sdk, flagName)
      && StringVariation(step.state, sdk, flagName, fallback) == ""
  {
  }

  /** A second `configure` after a successful first one takes the identify path
      and resolves with the new email, whatever the activity is by then. */
  lemma SecondConfigureIdentifies(
    apiKey: string, first: Options, application: Application, second: Options, activity: Option<Activity>)
    ensures var one := Configure(Initial, apiKey, first, Some(Activity(Some(application))));
      var two := Configure(one.state, apiKey, second, activity);
      && one.settlement == Resolved(GetString(first, "email"))
      && two.calls == [Identify(UserFromOptions(second))]
      && two.state.client == one.state.client
      && two.settlement == Resolved(GetString(second, "email"))
  {
  }
}
