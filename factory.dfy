/** `FingerprinterFactory`: the process-wide object that builds a
    Fingerprinter once per configuration and caches it. */
module Factory {
  import opened Configurations
  import opened FactoryModel

  /** A built `FingerprinterImpl`. It is never changed after construction,
      so all its fields are constants. */
  class FingerprinterImpl {
    const hardware: SignalProvider
    const osBuild: SignalProvider
    const deviceIdProvider: DeviceIdProvider
    const installedApps: SignalProvider
    const deviceState: SignalProvider
    const configuration: Configuration
    /** The number of the build that allocated this object. */
    ghost const serial: nat

    ghost function View(): Build {
      Build(serial, hardware, osBuild, deviceIdProvider, installedApps, deviceState, configuration)
    }

    constructor (hardware: SignalProvider, osBuild: SignalProvider, deviceIdProvider: DeviceIdProvider,
                 installedApps: SignalProvider, deviceState: SignalProvider, configuration: Configuration,
                 ghost serial: nat)
      ensures View() == Build(serial, hardware, osBuild, deviceIdProvider, installedApps, deviceState, configuration)
    {
      this.hardware := hardware;
      this.osBuild := osBuild;
      this.deviceIdProvider := deviceIdProvider;
      this.installedApps := installedApps;
      this.deviceState := deviceState;
      this.configuration := configuration;
      this.serial := serial;
    }
  }

  class FingerprinterFactory {
    var configuration: Configuration
    var instance: FingerprinterImpl?
    var hasher: Hasher
    /** How many Fingerprinters this factory has built. */
    ghost var builds: nat

    /** The factory's fields as a value of the model. */
    ghost function State(): Cache
      reads this
    {
      Cache(configuration, if instance == null then None else Some(instance.View()), hasher, builds)
    }

    ghost predicate Valid()
      reads this
    {
      FactoryModel.Valid(State())
    }

    /** The object's initial state: the default configuration, with its own
        default hasher, no instance, and a separate default hasher for the
        factory. */
    constructor ()
      ensures Valid()
      ensures State() == Initial(configuration.hasher, hasher)
      ensures fresh(configuration.hasher) && fresh(hasher)
      ensures configuration.hasher != hasher
    {
      var defaultHasher := new Hasher();
      var ownHasher := new Hasher();
      configuration := Configuration(1, defaultHasher);
      instance := null;
      hasher := ownHasher;
      builds := 0;
    }

    /** Returns the cached Fingerprinter for `c`, building it first when the
        stored configuration differs from `c` or nothing is cached. A new
        object is allocated exactly when the model says it rebuilds;
        otherwise the very object cached before is returned. */
    method GetInstance(c: Configuration) returns (r: FingerprinterImpl)
      requires Valid()
      modifies this
      ensures Valid()
      ensures State() == FactoryModel.GetInstance(old(State()), c).cache
      ensures r == instance && r.View() == FactoryModel.GetInstance(old(State()), c).returned
      ensures FactoryModel.GetInstance(old(State()), c).rebuilt ==> fresh(r)
      ensures !FactoryModel.GetInstance(old(State()), c).rebuilt ==> r == old(instance)
    {
      if configuration != c {
        instance := null;
      }
      // The source re-checks under a lock; run sequentially the re-check
      // always agrees with the first check.
      if instance == null {
        var built := InitializeFingerprinter(c);
        instance := built;
      }
      r := instance;
    }

    /** Stores `c` and its hasher, then builds a Fingerprinter whose signal
        providers read the fields just stored. */
    method InitializeFingerprinter(c: Configuration) returns (r: FingerprinterImpl)
      modifies this
      ensures instance == old(instance)
      ensures State() == FactoryModel.Initialize(old(State()), c).0
      ensures fresh(r) && r.View() == FactoryModel.Initialize(old(State()), c).1
      ensures BuiltFor(r.View(), c)
    {
      configuration := c;
      hasher := c.hasher;

      var version := configuration.version;
      r := new FingerprinterImpl(
        HardwareSignalProvider(hasher, version),
        OsBuildSignalProvider(hasher, version),
        NewDeviceIdProvider(),
        InstalledAppsSignalProvider(hasher, version),
        DeviceStateSignalProvider(hasher, version),
        c,
        builds);
      builds := builds + 1;
    }
  }
}
