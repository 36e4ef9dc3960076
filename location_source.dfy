/**
 * A single Android location provider (GPS or network) seen as an
 * environment source.
 *
 * The source caches the last reading its listener received and writes it,
 * when there is one, under its own tag. Its listener lives on a dedicated
 * worker thread; the worker is modelled as a handle with a flag saying
 * whether its stop handler exists yet, and a count of the stop messages
 * posted to it.
 */
module LocationSource {
  import opened Wrappers
  import opened Environment

  /** Environment tags of the two factory-made sources. */
  const TAG_GPS: string := "gps"
  const TAG_NETWORK: string := "network"

  /** Android's names of the two location providers. */
  const GPS_PROVIDER: string := "gps"
  const NETWORK_PROVIDER: string := "network"

  /**
   * A reading: capture time in milliseconds, coordinates in degrees and
   * accuracy in metres. Java's double and float become reals.
   */
  datatype Location = Location(time: int, latitude: real, longitude: real, accuracy: real)

  /** Java's `Math.round`: the nearest integer, halves rounded upwards. */
  function Round(x: real): (r: int)
    ensures x - 1.0 / 2.0 < r as real <= x + 1.0 / 2.0
  {
    (x + 1.0 / 2.0).Floor
  }

  /** `Round` is the only integer within half a unit of its argument (halves going up). */
  lemma RoundIsNearest(x: real, k: int)
    requires x - 1.0 / 2.0 < k as real <= x + 1.0 / 2.0
    ensures k == Round(x)
  {
  }

  /** The node written for a reading: timestamp, both coordinates and the rounded accuracy. */
  function LocationNode(loc: Location): (r: Record)
    ensures r.Keys == {"timestamp", "latitude", "longitude", "accuracy"}
    ensures r["timestamp"] == IntField(loc.time)
    ensures r["latitude"] == RealField(loc.latitude) && r["longitude"] == RealField(loc.longitude)
    ensures r["accuracy"].IntField?
    ensures loc.accuracy - 1.0 / 2.0 < r["accuracy"].n as real <= loc.accuracy + 1.0 / 2.0
  {
    map["timestamp" := IntField(loc.time),
        "latitude" := RealField(loc.latitude),
        "longitude" := RealField(loc.longitude),
        "accuracy" := IntField(Round(loc.accuracy))]
  }

  /** What `updateEnvironment` has to write for a cache: a node, or nothing at all. */
  function CachedNode(cache: Option<Location>): Option<Record>
  {
    match cache
    case None => None
    case Some(loc) => Some(LocationNode(loc))
  }

  /** A callback the operating system delivers to the source's listener. */
  datatype ListenerEvent =
    | LocationChanged(location: Location)
    | ProviderDisabled
    | ProviderEnabled(lastKnown: Option<Location>)   // the OS's last known reading at that moment
    | StatusChanged(status: int)

  /** The cached reading after one callback. */
  function Cached(cache: Option<Location>, e: ListenerEvent): Option<Location>
  {
    match e
    case LocationChanged(loc) => Some(loc)
    case ProviderDisabled => None
    case ProviderEnabled(lastKnown) => lastKnown
    case StatusChanged(_) => cache
  }

  /** Whether a callback raises `dataChanged`. */
  predicate SignalsChange(e: ListenerEvent)
  {
    !e.StatusChanged?
  }

  /** The cached reading after a sequence of callbacks, delivered in order. */
  function Replay(cache: Option<Location>, events: seq<ListenerEvent>): Option<Location>
    decreases |events|
  {
    if events == [] then cache else Replay(Cached(cache, events[0]), events[1..])
  }

  /** The number of `dataChanged` signals a sequence of callbacks raises. */
  function Signals(events: seq<ListenerEvent>): nat
    decreases |events|
  {
    if events == [] then 0 else (if SignalsChange(events[0]) then 1 else 0) + Signals(events[1..])
  }

  /** Status changes leave the cache alone and raise no signal. */
  lemma {:induction false} StatusChangesAreInert(cache: Option<Location>, events: seq<ListenerEvent>)
    requires forall j :: 0 <= j < |events| ==> events[j].StatusChanged?
    ensures Replay(cache, events) == cache
    ensures Signals(events) == 0
    decreases |events|
  {
    if events != [] {
      StatusChangesAreInert(Cached(cache, events[0]), events[1..]);
    }
  }

  /**
   * The cache depends only on the last callback that raised a signal: after
   * it, only status changes follow, and those do not touch the cache.
   */
  lemma {:induction false} LastSignalDecides(cache: Option<Location>, events: seq<ListenerEvent>, k: nat)
    requires k < |events| && SignalsChange(events[k])
    requires forall j :: k < j < |events| ==> events[j].StatusChanged?
    ensures Replay(cache, events) == Cached(None, events[k])
    decreases |events|
  {
    if k == 0 {
      StatusChangesAreInert(Cached(cache, events[0]), events[1..]);
    } else {
      LastSignalDecides(Cached(cache, events[0]), events[1..], k - 1);
    }
  }

  /**
   * A "provider disabled" callback clears the cache for good: however many
   * status changes follow, the next `updateEnvironment` writes nothing,
   * whatever was cached before.
   */
  lemma DisabledClearsCache(cache: Option<Location>, events: seq<ListenerEvent>, k: nat,
                            env: Snapshot, tag: string)
    requires k < |events| && events[k] == ProviderDisabled
    requires forall j :: k < j < |events| ==> events[j].StatusChanged?
    ensures Replay(cache, events) == None
    ensures Contribute(env, tag, CachedNode(Replay(cache, events))) == env
  {
    LastSignalDecides(cache, events, k);
  }

  /**
   * The worker thread that owns the listener. `run` (left out) creates the
   * stop handler once its message loop is prepared; only from then on can a
   * stop message be posted.
   */
  class LocationThread {
    var stopHandlerReady: bool
    var stopMessages: nat

    /** `new LocationThread()` followed by `start()`. */
    constructor ()
      ensures !stopHandlerReady && stopMessages == 0
    {
      stopHandlerReady := false;
      stopMessages := 0;
    }

    /** The point in `run` where `mStopHandler` is assigned. */
    method InstallStopHandler()
      modifies this
      ensures stopHandlerReady && stopMessages == old(stopMessages)
    {
      stopHandlerReady := true;
    }

    /** `shutdown`: posts a stop message only when the stop handler exists. */
    method Shutdown()
      modifies this
      ensures stopHandlerReady == old(stopHandlerReady)
      ensures stopMessages == old(stopMessages) + (if old(stopHandlerReady) then 1 else 0)
    {
      if stopHandlerReady {
        stopMessages := stopMessages + 1;
      }
    }
  }

  class LocationProvider {
    /** Tag of the node this source writes. */
    const tag: string
    /** Name of the Android location provider it listens to. */
    const providerName: string

    var lastLocation: Option<Location>
    var thread: LocationThread?
    /** How many times `dataChanged` has been raised. */
    var changeSignals: nat

    constructor (tag: string, providerName: string)
      ensures this.tag == tag && this.providerName == providerName
      ensures lastLocation == None && thread == null && changeSignals == 0
    {
      this.tag := tag;
      this.providerName := providerName;
      lastLocation := None;
      thread := null;
      changeSignals := 0;
    }

    /** `getGpsProvider`: a source tagged "gps" on the GPS provider. */
    static method GetGpsProvider() returns (p: LocationProvider)
      ensures fresh(p) && p.tag == TAG_GPS && p.providerName == GPS_PROVIDER
      ensures p.lastLocation == None && p.thread == null && p.changeSignals == 0
    {
      p := new LocationProvider(TAG_GPS, GPS_PROVIDER);
    }

    /** `getNetworkProvider`: a source tagged "network" on the network provider. */
    static method GetNetworkProvider() returns (p: LocationProvider)
      ensures fresh(p) && p.tag == TAG_NETWORK && p.providerName == NETWORK_PROVIDER
      ensures p.lastLocation == None && p.thread == null && p.changeSignals == 0
    {
      p := new LocationProvider(TAG_NETWORK, NETWORK_PROVIDER);
    }

    /**
     * `start`: with a location manager whose provider list names this
     * source's provider, a fresh worker is created and started; otherwise
     * nothing changes (an earlier worker, if any, is kept).
     */
    method Start(hasLocationManager: bool, availableProviders: seq<string>)
      modifies this
      ensures hasLocationManager && providerName in availableProviders ==>
                thread != null && fresh(thread) && !thread.stopHandlerReady && thread.stopMessages == 0
      ensures !(hasLocationManager && providerName in availableProviders) ==> thread == old(thread)
      ensures lastLocation == old(lastLocation) && changeSignals == old(changeSignals)
    {
      if hasLocationManager {
        if providerName !in availableProviders {
          return;
        }
        thread := new LocationThread();
      }
    }

    /**
     * `stop`: when a worker exists, asks it to shut down and forgets it; with
     * no worker it does nothing, so a second `stop`, or one before `start`,
     * is a no-op. A worker whose stop handler is not ready yet receives no
     * message.
     */
    method Stop()
      modifies this, thread
      ensures thread == null
      ensures old(thread) != null ==>
                old(thread).stopHandlerReady == old(thread.stopHandlerReady)
                && old(thread).stopMessages == old(thread.stopMessages) + (if old(thread.stopHandlerReady) then 1 else 0)
      ensures lastLocation == old(lastLocation) && changeSignals == old(changeSignals)
    {
      if thread != null {
        thread.Shutdown();
        thread := null;
      }
    }

    /**
     * `updateEnvironment`: with a cached reading, puts its node under the
     * tag; with none, leaves the environment as it was.
     */
    method UpdateEnvironment(env: JsonObject)
      modifies env
      ensures env.entries == Contribute(old(env.entries), tag, CachedNode(lastLocation))
    {
      if lastLocation.Some? {
        var root := LocationNode(lastLocation.value);
        env.Put(tag, root);
      }
    }

    /** Listener `onLocationChanged`: caches the new reading and signals. */
    method OnLocationChanged(location: Location)
      modifies this
      ensures lastLocation == Cached(old(lastLocation), LocationChanged(location)) == Some(location)
      ensures changeSignals == old(changeSignals) + 1
      ensures thread == old(thread)
    {
      lastLocation := Some(location);
      changeSignals := changeSignals + 1;
    }

    /** Listener `onProviderDisabled`: drops the cached reading and signals. */
    method OnProviderDisabled()
      modifies this
      ensures lastLocation == Cached(old(lastLocation), ProviderDisabled) == None
      ensures changeSignals == old(changeSignals) + 1
      ensures thread == old(thread)
    {
      lastLocation := None;
      changeSignals := changeSignals + 1;
    }

    /**
     * Listener `onProviderEnabled`: re-fetches the OS's last known reading,
     * which may be absent, and signals.
     */
    method OnProviderEnabled(lastKnown: Option<Location>)
      modifies this
      ensures lastLocation == Cached(old(lastLocation), ProviderEnabled(lastKnown)) == lastKnown
      ensures changeSignals == old(changeSignals) + 1
      ensures thread == old(thread)
    {
      lastLocation := lastKnown;
      changeSignals := changeSignals + 1;
    }

    /** Listener `onStatusChanged`: does nothing. */
    method OnStatusChanged(status: int)
      ensures lastLocation == Cached(old(lastLocation), StatusChanged(status))
      ensures changeSignals == old(changeSignals)
    {
    }
  }
}
