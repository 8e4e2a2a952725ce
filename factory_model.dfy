/** The memoizing cache of `FingerprinterFactory` as values: the factory's
    three fields, what a built `Fingerprinter` was wired with, and what one
    `getInstance` request does to them. The class in module `Factory` is
    proved to follow these functions step for step. */
module FactoryModel {
  import opened Configurations

  datatype Option<+T> = None | Some(value: T)

  /** The Android-backed data sources the builders wire in. Only which one is
      used is modelled; what they read is not. */
  datatype DataSource =
    | CpuInfoProvider
    | MemInfoProvider
    | OsBuildInfoProvider
    | SensorDataSource
    | InputDeviceDataSource
    | PackageManagerDataSource
    | SettingsDataSource
    | DevicePersonalizationDataSource
    | KeyGuardInfoProvider
    | FingerprintSensorInfoProvider
    | GsfIdProvider
    | AndroidIdProvider

  datatype SignalKind = Hardware | OsBuild | InstalledApps | DeviceState

  /** A signal provider as constructed: which signal it computes, the data
      sources it reads, and the hasher and schema version it was given. */
  datatype SignalProvider =
    SignalProvider(kind: SignalKind, sources: seq<DataSource>, hasher: Hasher, version: int)

  /** `DeviceIdProviderImpl(gsfIdProvider, androidIdProvider)`. */
  datatype DeviceIdProvider = DeviceIdProviderImpl(primary: DataSource, secondary: DataSource)

  /** What one `FingerprinterImpl` was constructed with. `serial` is the
      number of the build that allocated it: distinct serials mean distinct
      objects. */
  datatype Build = Build(
    serial: nat,
    hardware: SignalProvider,
    osBuild: SignalProvider,
    deviceIdProvider: DeviceIdProvider,
    installedApps: SignalProvider,
    deviceState: SignalProvider,
    configuration: Configuration)

  /** The factory's fields `configuration`, `instance` and `hasher`, and the
      number of Fingerprinters built so far. */
  datatype Cache = Cache(configuration: Configuration, instance: Option<Build>, hasher: Hasher, builds: nat)

  /** What a `getInstance` request leaves behind: the new state, the
      Fingerprinter returned, and whether a new one was built. */
  datatype Outcome = Outcome(cache: Cache, returned: Build, rebuilt: bool)

  predicate ProvidedWith(p: SignalProvider, c: Configuration) {
    p.hasher == c.hasher && p.version == c.version
  }

  /** `b` was built for `c`: it carries `c` itself, and each of its four
      signal providers was given `c`'s hasher and `c`'s version. */
  predicate BuiltFor(b: Build, c: Configuration) {
    && b.configuration == c
    && ProvidedWith(b.hardware, c)
    && ProvidedWith(b.osBuild, c)
    && ProvidedWith(b.installedApps, c)
    && ProvidedWith(b.deviceState, c)
  }

  /** The invariant the factory keeps: a cached Fingerprinter was built for
      the stored configuration, the stored hasher is that configuration's
      hasher, and the cached object comes from a build already counted. */
  predicate Valid(s: Cache) {
    s.instance.Some? ==>
      && s.hasher == s.configuration.hasher
      && BuiltFor(s.instance.value, s.configuration)
      && s.instance.value.serial < s.builds
  }

  /** The state of the factory object when it is first used: the default
      `Configuration(version = 1)`, no instance, and the factory's own hasher. */
  function Initial(defaultHasher: Hasher, hasher: Hasher): Cache {
    Cache(Configuration(1, defaultHasher), None, hasher, 0)
  }

  // The four signal-provider builders. Each is handed the hasher and the
  // version that the factory holds at the moment it is called.

  function HardwareSignalProvider(hasher: Hasher, version: int): SignalProvider {
    SignalProvider(Hardware,
      [CpuInfoProvider, MemInfoProvider, OsBuildInfoProvider, SensorDataSource, InputDeviceDataSource],
      hasher, version)
  }

  function OsBuildSignalProvider(hasher: Hasher, version: int): SignalProvider {
    SignalProvider(OsBuild, [OsBuildInfoProvider], hasher, version)
  }

  function InstalledAppsSignalProvider(hasher: Hasher, version: int): SignalProvider {
    SignalProvider(InstalledApps, [PackageManagerDataSource], hasher, version)
  }

  function DeviceStateSignalProvider(hasher: Hasher, version: int): SignalProvider {
    SignalProvider(DeviceState,
      [SettingsDataSource, DevicePersonalizationDataSource, KeyGuardInfoProvider, FingerprintSensorInfoProvider],
      hasher, version)
  }

  function NewDeviceIdProvider(): DeviceIdProvider {
    DeviceIdProviderImpl(GsfIdProvider, AndroidIdProvider)
  }

  /** `FingerprinterImpl(...)` assembled from the factory's fields as they
      are in `s`, handed the configuration `c`. */
  function Assemble(s: Cache, c: Configuration): Build {
    var version := s.configuration.version;
    Build(s.builds,
      HardwareSignalProvider(s.hasher, version),
      OsBuildSignalProvider(s.hasher, version),
      NewDeviceIdProvider(),
      InstalledAppsSignalProvider(s.hasher, version),
      DeviceStateSignalProvider(s.hasher, version),
      c)
  }

  /** `initializeFingerprinter(c)`: first store `c` and its hasher in the
      factory, then assemble a new Fingerprinter from those fields. Because
      the fields are stored first, every provider gets `c`'s version and
      hasher; the cached instance itself is not touched here. */
  function Initialize(s: Cache, c: Configuration): (r: (Cache, Build))
    ensures r.0.configuration == c && r.0.hasher == c.hasher
    ensures r.0.instance == s.instance && r.0.builds == s.builds + 1
    ensures BuiltFor(r.1, c)
    ensures r.1.serial == s.builds
  {
    var recorded := s.(configuration := c, hasher := c.hasher);
    (recorded.(builds := s.builds + 1), Assemble(recorded, c))
  }

  /** `getInstance(c)`: drop the cached instance when the stored
      configuration differs from `c`; build one when none is cached; return
      the cached one. */
  function GetInstance(s: Cache, c: Configuration): (r: Outcome)
    // The stored configuration is now `c`, and what is returned is what is cached.
    ensures r.cache.configuration == c
    ensures r.cache.instance == Some(r.returned)
    // A new Fingerprinter is built exactly on a configuration change or an empty cache.
    ensures r.rebuilt <==> s.configuration != c || s.instance == None
    // Cache hit: nothing changes and the cached Fingerprinter is returned.
    ensures !r.rebuilt ==> r.cache == s && Some(r.returned) == s.instance
    // Cache miss: exactly one new Fingerprinter, built for `c`, with `c`'s hasher stored.
    ensures r.rebuilt ==>
      && r.cache.builds == s.builds + 1
      && r.returned.serial == s.builds
      && r.cache.hasher == c.hasher
      && BuiltFor(r.returned, c)
    // The invariant is kept, and whatever is returned was built for `c`.
    ensures Valid(s) ==> Valid(r.cache) && BuiltFor(r.returned, c)
    // A rebuild never hands back the Fingerprinter it replaced.
    ensures Valid(s) && s.instance.Some? && r.rebuilt ==> r.returned != s.instance.value
  {
    var kept := if s.configuration != c then s.(instance := None) else s;
    if kept.instance == None then
      var (initialized, built) := Initialize(kept, c);
      Outcome(initialized.(instance := Some(built)), built, true)
    else
      Outcome(kept, kept.instance.value, false)
  }

  /** From the factory's first state, the first request always builds, even
      when it asks for the default configuration itself. */
  lemma FirstRequestBuilds(defaultHasher: Hasher, hasher: Hasher, c: Configuration)
    ensures GetInstance(Initial(defaultHasher, hasher), c).rebuilt
    ensures GetInstance(Initial(defaultHasher, hasher), c).cache.builds == 1
  {
  }

  /** Two requests in a row with equal configurations return the same
      Fingerprinter; only the first of them may build it. */
  lemma EqualRequestsShareInstance(s: Cache, c: Configuration)
    ensures var first := GetInstance(s, c);
            var second := GetInstance(first.cache, c);
            && second.returned == first.returned
            && !second.rebuilt
            && second.cache == first.cache
            && second.cache.builds <= s.builds + 1
  {
  }

  /** A request whose build throws (a builder for an Android service fails)
      after `initializeFingerprinter` has stored `c` and its hasher: the
      factory keeps `c` and `c.hasher`, has no instance, and counts no
      build. */
  function AbortedRequest(s: Cache, c: Configuration): (r: Cache)
    requires s.configuration != c || s.instance == None
    ensures r.configuration == c && r.hasher == c.hasher
    ensures r.instance == None && r.builds == s.builds
    ensures Valid(r)
  {
    var kept := if s.configuration != c then s.(instance := None) else s;
    Initialize(kept, c).0.(builds := s.builds)
  }

  /** After a request whose build threw, asking again for the same
      configuration builds afresh rather than finding a cached instance. */
  lemma RetryAfterAbortBuilds(s: Cache, c: Configuration)
    requires s.configuration != c || s.instance == None
    ensures GetInstance(AbortedRequest(s, c), c).rebuilt
    ensures BuiltFor(GetInstance(AbortedRequest(s, c), c).returned, c)
    ensures GetInstance(AbortedRequest(s, c), c).cache.builds == s.builds + 1
  {
  }
}
