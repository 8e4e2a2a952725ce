# FingerprinterFactory: the memoizing Fingerprinter cache

fingerprint-android turns device signals into identifiers through a
`Fingerprinter`. Callers get one from `FingerprinterFactory.getInstance(context,
configuration)`. The factory is a process-wide object with three fields: the
last `configuration`, the cached `instance` and the `hasher`. A request
whose configuration is not equal to the stored one discards the cached
instance. When nothing is cached, `initializeFingerprinter` first stores the
new configuration and its hasher, then builds the four signal providers
(hardware, OS build, installed apps, device state) from those fields, adds a
device-id provider and hands the configuration itself to `FingerprinterImpl`.

The project has four modules:

- `Configurations` (configuration.dfy): `Configuration(version, hasher)`, a
  data class compared by value, and `Hasher`, compared by identity.
- `FactoryModel` (factory_model.dfy): the factory's fields as a value
  (`Cache`), what a built Fingerprinter was wired with (`Build`), the
  invariant the factory keeps (`Valid`), and one request as a function
  (`GetInstance`, with `Initialize` for `initializeFingerprinter`). The
  builders `HardwareSignalProvider`, `OsBuildSignalProvider`,
  `InstalledAppsSignalProvider`, `DeviceStateSignalProvider` and
  `NewDeviceIdProvider` stand for the `create*Fingerprinter` and
  `createDeviceIdProvider` helpers (FingerprinterFactory.kt lines 92-136). The
  four signal-provider builders take the hasher and version the factory holds
  when they are called; the device-id provider takes neither.
- `Factory` (factory.dfy): the factory as a class whose methods update
  `configuration`, `instance` and `hasher` in place and allocate a new
  `FingerprinterImpl` object on each build. Each method is proved to do
  what the `FactoryModel` function says, and to return the very same
  object on a cache hit.
- `Requests` (requests.dfy): a sequence of requests answered in turn, and
  what holds across such a sequence.

A ghost counter `builds` numbers the Fingerprinters built. Each build
records its number as `serial`, so "the same instance" and "rebuilt" can
be stated of values as well as of objects.

## Model

All source paths are under `fingerprint/src/main/java/com/fingerprintjs/android/fingerprint/`.

| member | source | states |
|---|---|---|
| `FactoryModel.GetInstance` | fingerprint/src/main/java/com/fingerprintjs/android/fingerprint/FingerprinterFactory.kt:54-71 | After a request for `c`, the stored configuration is `c` and the cached instance is the one returned. A build happens exactly when the stored configuration differs from `c` or nothing is cached. On a hit, nothing changes and the cached instance is returned. On a miss, exactly one Fingerprinter is built, for `c`, and `c`'s hasher is stored. The invariant is kept, and the result was built for `c`. A rebuild never returns the instance it replaced. |
| `FactoryModel.Initialize` | fingerprint/src/main/java/com/fingerprintjs/android/fingerprint/FingerprinterFactory.kt:73-88 | The configuration and hasher are stored before the providers are built. So the new Fingerprinter carries `c`, every signal provider has `c.version` and `c.hasher`, and the cached instance is left untouched. |
| `FactoryModel.FirstRequestBuilds` | fingerprint/src/main/java/com/fingerprintjs/android/fingerprint/FingerprinterFactory.kt:49-65 | From the initial state (default `Configuration(version = 1)`, no instance), the first request always builds, even for a configuration equal to the default one. |
| `FactoryModel.EqualRequestsShareInstance` | fingerprint/src/main/java/com/fingerprintjs/android/fingerprint/FingerprinterFactory.kt:58-70 | Two requests in a row with equal configurations return the same Fingerprinter. The second changes nothing, and at most one build happens across the pair. |
| `FactoryModel.AbortedRequest` | fingerprint/src/main/java/com/fingerprintjs/android/fingerprint/FingerprinterFactory.kt:58-88 | A request whose build throws after lines 77-78 ran leaves the stored configuration `c`, the stored hasher `c.hasher`, no instance and no build counted; that state satisfies the invariant. |
| `FactoryModel.RetryAfterAbortBuilds` | fingerprint/src/main/java/com/fingerprintjs/android/fingerprint/FingerprinterFactory.kt:58-65 | After such a failed request, asking again for the same configuration finds nothing cached and builds one Fingerprinter for it. |
| `Factory.FingerprinterImpl.constructor` | fingerprint/src/main/java/com/fingerprintjs/android/fingerprint/FingerprinterFactory.kt:80-87 | The built object holds exactly the providers and the configuration it was given. |
| `Factory.FingerprinterFactory.constructor` | fingerprint/src/main/java/com/fingerprintjs/android/fingerprint/FingerprinterFactory.kt:49-51 | Initial fields: configuration version 1 with its own default hasher, no instance, and a separate new hasher. The invariant holds. |
| `Factory.FingerprinterFactory.GetInstance` | fingerprint/src/main/java/com/fingerprintjs/android/fingerprint/FingerprinterFactory.kt:54-71 | The new fields are those `FactoryModel.GetInstance` gives. The result is non-null and is the object now in `instance`. On a rebuild it is a freshly allocated object; otherwise it is the very object cached before. The invariant is kept. |
| `Factory.FingerprinterFactory.InitializeFingerprinter` | fingerprint/src/main/java/com/fingerprintjs/android/fingerprint/FingerprinterFactory.kt:73-88 | Stores `c` and `c.hasher`, leaves `instance` alone, and returns a fresh object built for `c`. This follows from storing the fields before building the providers. |
| `Requests.Run` | fingerprint/src/main/java/com/fingerprintjs/android/fingerprint/FingerprinterFactory.kt:54-71 | Over any sequence of requests: one answer per request, the stored configuration is the last one requested and its answer is cached, builds rise by at most one per request, and the invariant is kept. |
| `Requests.AnswersMatchRequests` | fingerprint/src/main/java/com/fingerprintjs/android/fingerprint/FingerprinterFactory.kt:58-88 | From a valid state, every answer in a sequence was built for exactly the configuration its request asked for. |
| `Requests.HitsKeepTheCache` | fingerprint/src/main/java/com/fingerprintjs/android/fingerprint/FingerprinterFactory.kt:58-70 | Once `c` is stored and an instance is cached, any number of further requests for `c` leave the factory unchanged and all get that instance. |
| `Requests.RepeatedRequestsShareOneInstance` | fingerprint/src/main/java/com/fingerprintjs/android/fingerprint/FingerprinterFactory.kt:58-70 | `n` consecutive requests for one configuration all get the same Fingerprinter. Exactly one is built if the factory did not already hold `c` with a cached instance, and none otherwise. |

## Left out

- The Android `Context` parameter is dropped. It only feeds the data-source builders.
- The `synchronized` block and the re-check inside it (lines 63-67) are modelled as a plain sequential check. The model has no threads, so it says nothing about concurrent callers. The at-most-one-build property is stated for requests answered one after another (`Requests.RepeatedRequestsShareOneInstance`).
- The data-source builders (lines 141-208) wrap Android services. They are modelled only as which `DataSource` each provider is wired to; what they read is not modelled.
- Factory.FingerprinterFactory.GetInstance: modelled as never throwing. In the source a builder can throw (`contentResolver!!` at lines 161 and 165, the service casts at 146, 170, 176 and 206, `StatFs` at 148 and 151), and the exception leaves `getInstance` after lines 77-78 stored `c` and `c.hasher`, with no instance cached. The class has no such path; the state it leaves is given, as a value, by `FactoryModel.AbortedRequest`, which is proved to keep the invariant, and `FactoryModel.RetryAfterAbortBuilds` shows the next request for `c` builds.
- The internals of `FingerprinterImpl`, of the signal providers, of `DeviceIdProviderImpl` and of `MurMur3x64x128Hasher` are not part of this model. Built objects record only what they were constructed with; no hashing or version filtering is modelled.
- `Configuration` and `Hasher` are not part of this model as source. `Configuration` is taken to be a data class (value equality on version and hasher). The hashers are taken not to override equality, so they compare by identity. The default hasher of `Configuration(version = 1)` is taken to be a new object, distinct from the factory's own `hasher`.
- The data-source exception-handling tests check sentinel results of data sources whose code is not part of this model, so they are not modelled.
