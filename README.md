# RNLaunchDarkly bridge, modelled in Dafny

The `RNLaunchDarkly` React Native module exposes the LaunchDarkly Android SDK to
JavaScript. It does two things with logic of its own, and this project models both:

- **User building** (`configure`): it turns the caller's `options` map into an
  `LDUser`. The reserved fields (`key`, `email`, `firstName`, `lastName`,
  `isAnonymous`) are copied one by one. Every other entry whose value is a number
  or a string becomes a custom attribute and keeps its type. Entries of any other
  type are dropped without an error.
- **The session**: the module's two fields, `ldClient` and `user`, both possibly
  null. `configure` either re-identifies (when a client and a user exist), or stores
  the user and then initialises a client when the current activity has an
  application, or rejects. `boolVariation` and `stringVariation` answer `false` and
  `""` while there is no client, and otherwise ask the SDK.

Files:

- `wrappers.dfy` (`Wrappers`): `Option`, standing in for a nullable Java reference.
- `readable_map.dfy` (`ReadableMap`): the dynamically typed values of a React
  Native `ReadableMap`, Java strings that may be null, and the `getString` /
  `getBoolean` getters.
- `user.dfy` (`LaunchDarklyUser`): the user record, the reserved-field copy
  (`ReservedFields`), the declarative custom-attribute filter (`CustomAttributes`),
  and `BuildUser`, the imperative walk over the map's keys, proved equal to the filter.
- `session.dfy` (`BridgeSession`): the session as a state machine over values.
  It covers `Configure`, the listener, the variations, and runs of any sequence of
  operations. Lemmas prove the invariant "a client only with a user", that a
  client handle is never replaced, and that the SDK is initialised at most once.
- `bridge.dfy` (`LaunchDarklyBridge`): the class `RNLaunchDarklyModule`. Its
  fields `ldClient` and `user` are updated in place by `Configure` and left alone by
  `AddFeatureFlagChangeListener`. Each method is proved against the state machine
  above. A ghost log `sdkCalls` records the calls into the SDK (`Init`,
  `Identify`, `RegisterListener`), and `Valid()` ties that log to the fields.

The LaunchDarkly SDK is an opaque collaborator. Client creation is recorded
as a `ClientHandle` value built from the arguments of `LDClient.init`. `identify`
and listener registration are entries in the ghost log. Flag evaluation is a pair of
function values (`Sdk`) passed by the caller. Two inputs that come from the
environment are parameters: the current activity (and whether it has an
application) for `Configure`, and whether the SDK's global `LDClient.get()`
finds a client for `AddFeatureFlagChangeListener`. The promise and the callbacks
become returned values: `Resolved(email)` / `Rejected(message)` and the variation result.

## Model

| member | source | states |
|---|---|---|
| LaunchDarklyUser.ReservedFields | android/src/main/java/com/launchdarkly/RNLaunchDarklyModule.java:50-66 | each of `email`, `firstName`, `lastName`, `isAnonymous` is set exactly when the option is present (even if null), and no custom attribute is set yet |
| LaunchDarklyUser.BuildUser | android/src/main/java/com/launchdarkly/RNLaunchDarklyModule.java:50-81 | the walk over every key of `options`, reassigning the builder for each custom entry, yields exactly the declaratively specified user (reserved copy plus filtered custom attributes), whatever order the keys come in |
| LaunchDarklyUser.CustomAttributesStep | android/src/main/java/com/launchdarkly/RNLaunchDarklyModule.java:70-81 | visiting one more key adds that key's attribute exactly when it is non-reserved and a number or string, and changes nothing else |
| LaunchDarklyUser.CustomKeysExactly | android/src/main/java/com/launchdarkly/RNLaunchDarklyModule.java:68-81 | a key is a custom attribute if and only if it is in `options`, not reserved, and its value is a Number or a String |
| LaunchDarklyUser.ReservedNeverCustom | android/src/main/java/com/launchdarkly/RNLaunchDarklyModule.java:68-73 | none of `key`, `email`, `firstName`, `lastName`, `isAnonymous` is ever a custom attribute, whatever its value |
| LaunchDarklyUser.CustomKeepsType | android/src/main/java/com/launchdarkly/RNLaunchDarklyModule.java:74-78 | a Number entry is stored as a number and a String entry as a string, with the same value; entries of other types add nothing |
| LaunchDarklyUser.CustomRoundTrip | android/src/main/java/com/launchdarkly/RNLaunchDarklyModule.java:74-78 | reading the custom attributes back as map values gives exactly the custom entries of `options` |
| LaunchDarklyUser.ReservedFieldsCopied | android/src/main/java/com/launchdarkly/RNLaunchDarklyModule.java:50-66 | the user's key is the `key` option; `email`, `firstName`, `lastName` and `isAnonymous` are set exactly when present, to the option's value; no custom attribute yet |
| LaunchDarklyUser.FieldsAreIndependent | android/src/main/java/com/launchdarkly/RNLaunchDarklyModule.java:50-81 | the reserved fields depend only on the reserved entries and the custom attributes only on the other entries |
| LaunchDarklyUser.ExampleUser | android/src/main/java/com/launchdarkly/RNLaunchDarklyModule.java:50-81 | the options `{key:"u1", email:"a@b.com", plan:"pro", score:5}` give key `u1`, email `a@b.com` and custom attributes `{plan:"pro", score:5}` |
| BridgeSession.Configure | android/src/main/java/com/launchdarkly/RNLaunchDarklyModule.java:44-105 | every path stores the newly built user; a resolution carries the `email` option and leaves a client after exactly one SDK call; a rejection keeps the client and calls nothing; a client that was not there before appears only through a single `Init` of that handle |
| BridgeSession.ListenerCalls | android/src/main/java/com/launchdarkly/RNLaunchDarklyModule.java:107-127 | the listener makes an SDK call exactly when the global client exists, and that one call registers the given flag name |
| BridgeSession.BoolVariation | android/src/main/java/com/launchdarkly/RNLaunchDarklyModule.java:129-137 | without a client the value is `false` |
| BridgeSession.StringVariation | android/src/main/java/com/launchdarkly/RNLaunchDarklyModule.java:139-147 | without a client the value is `""` |
| BridgeSession.ConfigureEstablishesInv | android/src/main/java/com/launchdarkly/RNLaunchDarklyModule.java:83-92 | after any `configure`, from any state, the user is the newly built one, so a client is never held without a user |
| BridgeSession.ConfigureWithClient | android/src/main/java/com/launchdarkly/RNLaunchDarklyModule.java:83-90 | with a client present, `configure` keeps the same handle, replaces the user, calls `identify` with it (no re-initialisation) and resolves with the `email` option |
| BridgeSession.FirstConfigureWithApplication | android/src/main/java/com/launchdarkly/RNLaunchDarklyModule.java:92-100 | with no client and an application available, `configure` stores the user, initialises one client for that application, configuration and user with a zero start-up wait, and resolves with the `email` option |
| BridgeSession.FirstConfigureWithoutApplication | android/src/main/java/com/launchdarkly/RNLaunchDarklyModule.java:92-104 | with no client and no application, `configure` rejects with the "application was null" message, leaves the client unset, calls nothing, and still stores the new user |
| BridgeSession.ConfigureSettlement | android/src/main/java/com/launchdarkly/RNLaunchDarklyModule.java:83-104 | `configure` rejects if and only if there is no client and no application; every resolution carries the `email` option |
| BridgeSession.ExecutePreservesInv | android/src/main/java/com/launchdarkly/RNLaunchDarklyModule.java:83-104 | every sequence of `configure` and listener calls keeps "client implies user" |
| BridgeSession.HandleNeverReplaced | android/src/main/java/com/launchdarkly/RNLaunchDarklyModule.java:83-97 | once a client exists, no later sequence of operations replaces or clears it |
| BridgeSession.InitialisedAtMostOnce | android/src/main/java/com/launchdarkly/RNLaunchDarklyModule.java:83-104 | a run calls `LDClient.init` once if it ends with a client it did not start with, and never otherwise |
| BridgeSession.FreshBridgeInitialisesAtMostOnce | android/src/main/java/com/launchdarkly/RNLaunchDarklyModule.java:34-104 | from a freshly constructed module, any sequence of operations initialises a client at most once |
| BridgeSession.ListenerKeepsState | android/src/main/java/com/launchdarkly/RNLaunchDarklyModule.java:107-127 | registering a listener never changes the client or the user; it registers with the SDK only when the global client exists, and otherwise swallows the failure |
| BridgeSession.VariationDefaults | android/src/main/java/com/launchdarkly/RNLaunchDarklyModule.java:129-147 | without a client `boolVariation` is `false` and `stringVariation` is `""` for every fallback; with one they delegate, with default `false` and with the caller's fallback |
| BridgeSession.RejectedConfigureKeepsDefaults | android/src/main/java/com/launchdarkly/RNLaunchDarklyModule.java:92-133 | after a first `configure` that finds no activity, or an activity whose application is null, rejects, both variations still answer with their defaults |
| BridgeSession.SecondConfigureIdentifies | android/src/main/java/com/launchdarkly/RNLaunchDarklyModule.java:83-100 | a second `configure` after a successful first one identifies the new user on the same handle and resolves with the new email |
| LaunchDarklyBridge.RNLaunchDarklyModule.constructor | android/src/main/java/com/launchdarkly/RNLaunchDarklyModule.java:34-42 | a new module has no client, no user and has made no SDK call, under the name `RNLaunchDarkly` |
| LaunchDarklyBridge.RNLaunchDarklyModule.Configure | android/src/main/java/com/launchdarkly/RNLaunchDarklyModule.java:44-105 | the in-place update of `ldClient` and `user`, the settlement and the SDK calls are exactly those of the session's `Configure`; `Valid()` is kept |
| LaunchDarklyBridge.RNLaunchDarklyModule.AddFeatureFlagChangeListener | android/src/main/java/com/launchdarkly/RNLaunchDarklyModule.java:107-127 | leaves `ldClient` and `user` unchanged, raises nothing, and records a registration only when the global client exists |
| LaunchDarklyBridge.RNLaunchDarklyModule.BoolVariation | android/src/main/java/com/launchdarkly/RNLaunchDarklyModule.java:129-137 | the callback value is `false` without a client, and otherwise the SDK's evaluation with default `false` |
| LaunchDarklyBridge.RNLaunchDarklyModule.StringVariation | android/src/main/java/com/launchdarkly/RNLaunchDarklyModule.java:139-147 | the callback value is `""` without a client, and otherwise the SDK's evaluation with the caller's fallback |
| LaunchDarklyBridge.RetryAfterRejectedConfigure | android/src/main/java/com/launchdarkly/RNLaunchDarklyModule.java:83-104 | a first `configure` without an activity rejects, `boolVariation` then answers `false`, and a later `configure` with an application resolves and leaves `ldClient` holding the client initialised for that application, mobile key and the user built from the options, with a zero start-up wait |

## Left out

- React Native's `ReadableMap` implementation is not modelled. Only its value types and the two getters the bridge calls are, and those getters are made total: `getString` of a missing key, or of a value that is not a string, reads as Java `null`, and `getBoolean` of a value that is not a boolean reads as `false`. The real getters may throw in those cases (a missing `key`, a mistyped reserved field, and a missing `email` at lines 87 and 99). The model reads an absent `email` as null, so `configure` resolves with a null email.
- Numbers: `getDouble` values are carried as an opaque 64-bit payload. No floating point is modelled.
- LaunchDarkly SDK internals are not modelled: `LDConfig` beyond the mobile key, `LDUser.Builder` beyond recording the fields it is given, what `LDClient.init` and `identify` do, and real flag evaluation. Evaluation is the caller-supplied `Sdk` functions of the handle, the flag name and the default. The SDK's own state, such as the user it last identified, is folded into those functions.
- The global `LDClient.get()` singleton: whether it finds a client is the `clientReady` parameter of `AddFeatureFlagChangeListener`. It is not derived from `ldClient`.
- The listener callback that emits `FeatureFlagChanged` events through `DeviceEventManagerModule` (lines 109-119) is runtime plumbing and is not modelled. Only the registration is recorded.
- Logging (`Log.d`, `printStackTrace`) is output only.
- The asynchronous delivery of promises and callbacks is not modelled. Each becomes a returned value.
- The threads on which the SDK calls back are not modelled. The model is sequential.
