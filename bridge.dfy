/**
 * The React Native module itself: an object holding the optional client handle
 * and the optional current user, updated in place by `configure`, and read by
 * the two variation queries.
 */
module LaunchDarklyBridge {

  import opened Wrappers
  import opened ReadableMap
  import opened LaunchDarklyUser
  import opened BridgeSession

  class RNLaunchDarklyModule {

    /** The name the module is registered under with React Native. */
    const name: string

    var ldClient: Option<ClientHandle>
    var user: Option<User>

    /** Every call this bridge has made into the SDK that changes the SDK's state. */
    ghost var sdkCalls: seq<SdkCall>

    /** The two fields as a session value. */
    function Snapshot(): State
      reads this
    {
      State(ldClient, user)
    }

    /** A client is only held together with a user, and the SDK has been asked to
        initialise exactly once if there is a client and never if there is none. */
    ghost predicate Valid()
      reads this
    {
      && Inv(Snapshot())
      && InitCount(sdkCalls) == (if ldClient.Some? then 1 else 0)
      && (ldClient.Some? ==> Init(ldClient.value) in sdkCalls)
    }

    constructor ()
      ensures Valid()
      ensures name == "RNLaunchDarkly"
      ensures Snapshot() == Initial && sdkCalls == []
    {
      name := "RNLaunchDarkly";
      ldClient := None;
      user := None;
      sdkCalls := [];
    }

    /**
     * `configure(apiKey, options, promise)`, with the activity React Native
     * reports as current. Returns how the promise settles.
     */
    method Configure(apiKey: string, options: Options, activity: Option<Activity>) returns (settlement: Settlement)
      requires Valid()
      modifies this`ldClient, this`user, this`sdkCalls
      ensures Valid()
      ensures var step := BridgeSession.Configure(old(Snapshot()), apiKey, options, activity);
        && Snapshot() == step.state
        && settlement == step.settlement
        && sdkCalls == old(sdkCalls) + step.calls
    {
      var config := Config(apiKey);
      var built := BuildUser(options);

      if user.Some? && ldClient.Some? {
        user := Some(built);
        InitCountAppend(sdkCalls, [Identify(built)]);
        sdkCalls := sdkCalls + [Identify(built)];
        settlement := Resolved(GetString(options, "email"));
        return;
      }

      user := Some(built);

      if activity.Some? && activity.value.application.Some? {
        var handle := ClientHandle(activity.value.application.value, config, built, 0);
        ldClient := Some(handle);
        InitCountAppend(sdkCalls, [Init(handle)]);
        sdkCalls := sdkCalls + [Init(handle)];
        settlement := Resolved(GetString(options, "email"));
      } else {
        settlement := Rejected(ApplicationNullMessage);
      }
    }

    /**
     * `addFeatureFlagChangeListener(flagName)`; `clientReady` says whether the
     * SDK's global `LDClient.get()` finds a client. Either way the fields stay as
     * they are and nothing is raised to the caller.
     */
    method AddFeatureFlagChangeListener(flagName: string, clientReady: bool)
      requires Valid()
      modifies this`sdkCalls
      ensures Valid()
      ensures ldClient == old(ldClient) && user == old(user)
      ensures sdkCalls == old(sdkCalls) + ListenerCalls(flagName, clientReady)
    {
      if clientReady {
        InitCountAppend(sdkCalls, [RegisterListener(flagName)]);
        sdkCalls := sdkCalls + [RegisterListener(flagName)];
      }
    }

    /** `boolVariation(flagName, callback)`: the value handed to the callback. */
    function BoolVariation(sdk: Sdk, flagName: string): (r: bool)
      reads this
      ensures ldClient.None? ==> !r
      ensures ldClient.Some? ==> r == sdk.boolVariation(ldClient.value, flagName, false)
    {
      BridgeSession.BoolVariation(Snapshot(), sdk, flagName)
    }

    /** `stringVariation(flagName, fallback, callback)`: the value handed to the callback. */
    function StringVariation(sdk: Sdk, flagName: string, fallback: string): (r: string)
      reads this
      ensures ldClient.None? ==> r == ""
      ensures ldClient.Some? ==> r == sdk.stringVariation(ldClient.value, flagName, fallback)
    {
      BridgeSession.StringVariation(Snapshot(), sdk, flagName, fallback)
    }
  }

  /**
   * What a caller can rely on from the contracts alone: a bridge whose first
   * `configure` finds no application rejects, still answers with the defaults,
   * and on a later `configure` once an application is there initialises a
   * client for that application, key and user, and resolves. `client` is the
   * bridge's `ldClient` at the end.
   */
  method RetryAfterRejectedConfigure(apiKey: string, options: Options, application: Application, sdk: Sdk, flagName: string)
    returns (first: Settlement, flagBefore: bool, second: Settlement, client: Option<ClientHandle>)
    ensures first == Rejected(ApplicationNullMessage)
    ensures !flagBefore
    ensures second == Resolved(GetString(options, "email"))
    ensures client == Some(ClientHandle(application, Config(apiKey), UserFromOptions(options), 0))
  {
    var bridge := new RNLaunchDarklyModule();
    first := bridge.Configure(apiKey, options, None);
    flagBefore := bridge.BoolVariation(sdk, flagName);
    second := bridge.Configure(apiKey, options, Some(Activity(Some(application))));
    client := bridge.ldClient;
  }
}
