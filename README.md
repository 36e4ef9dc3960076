# Hoccer Android service: environment sources and idle shutdown

A Dafny model of three small state machines in the Hoccer Android client.

- **Location source** (`AndroidLocationProvider`). It caches the last reading its listener received. "Changed" stores a reading, "disabled" clears it, "enabled" re-fetches the operating system's last known reading, and a status change does nothing. `updateEnvironment` writes a node under the source's tag ("gps" or "network") only while a reading is cached. That node holds the timestamp, both coordinates and the accuracy rounded by `Math.round`. `start` creates a worker thread only when the provider is in the system's provider list. `stop` asks the worker to shut down and forgets it, and does nothing when there is no worker. The worker's `shutdown` posts a stop message only once its stop handler exists.
- **Wi-Fi source** (`AndroidWifiProvider`). `isAvailable` is false without a Wi-Fi manager and for the DISABLED, DISABLING and UNKNOWN radio states. `updateEnvironment` writes a "wifi" node, holding a timestamp and one BSSID per scan result in scan order, only when the radio is available. `start` registers a broadcast receiver and signals once, but only when the system offers a Wi-Fi manager. `stop` always drops the manager. It unregisters the receiver only when there is one.
- **Keep-alive controller** (`HoccerService`). `doKeepAlive` starts the discovery client only if it is not running. It then calls `scheduleStop(30)`, which cancels the pending shutdown task, if any, and schedules a new one 30 seconds ahead on a single-threaded timer executor. `scheduleStop` returns whether a shutdown was pending. When the shutdown task runs, it stops the client if it is running, calls `stopSelf`, and clears the pending reference. `onCreate` registers the wifi, gps and network sources in that order and performs one keep-alive. `onDestroy` shuts the executor down and stops the client only if it runs.

Each provider's `dataChanged()` notification is modelled as a counter, `changeSignals`. The discovery client is reduced to a running flag and counters of its starts and stops. The timer executor is reduced to its queue of tasks, each with a deadline, a cancelled flag and a done flag. Time is an integer clock in seconds. The controller's invariant `KeepAlive.Valid` says that the referenced shutdown task is the only live task, so at most one shutdown is ever pending.

Inputs that come from Android become parameters of the methods:
- whether a system service exists;
- the provider list;
- the radio state (as Android's integers);
- the scan list;
- the last known location;
- the provider's timestamp;
- the current time.

Files:
- `wrappers.dfy`: the Option type.
- `environment.dfy`: the environment object, which maps a tag to a node, and what a contribution does to it.
- `location_source.dfy`: the location source.
- `wifi_source.dfy`: the Wi-Fi source.
- `keep_alive.dfy`: the keep-alive controller and the service.

## Where the code departs from the intended design

The model follows the code in each of these cases:
- The keep-alive and the shutdown task only start and stop the client. They do not start or stop the environment sources themselves; any such effect happens inside the client, which is not part of this model.
- A location source's `stop` posts a stop message only if the worker has already created its stop handler. If the handler does not exist yet, no message is sent and the worker reference is dropped, so nothing asks that worker to end. `LocationSource.LocationProvider.Stop` states this case.
- A second `start` on either source replaces the worker or receiver reference without stopping the old one. The Wi-Fi model keeps the old receiver in its registered set.

## Model

| member | source | states |
|---|---|---|
| Environment.Contribute | src/main/java/com/hoccer/android/environment/AndroidLocationProvider.java:119-130 | With no node to write the environment is unchanged; with one, exactly the provider's tag is added or overwritten and every other tag keeps its node |
| Environment.ContributionsCommute | src/main/java/com/hoccer/android/service/HoccerService.java:63-65 | Sources with distinct tags do not interfere: the order in which they contribute does not change the environment |
| Environment.JsonObject.Put | src/main/java/com/hoccer/android/environment/AndroidLocationProvider.java:129 | `put` adds the key or replaces its value, leaving the other keys alone |
| LocationSource.Round | src/main/java/com/hoccer/android/environment/AndroidLocationProvider.java:127 | `Math.round` gives an integer within half a unit of its argument, with halves going up |
| LocationSource.RoundIsNearest | src/main/java/com/hoccer/android/environment/AndroidLocationProvider.java:127 | That integer is unique: any integer in the half-open window is the rounded value |
| LocationSource.LocationNode | src/main/java/com/hoccer/android/environment/AndroidLocationProvider.java:120-127 | The node has exactly the keys timestamp, latitude, longitude and accuracy; the first three carry the reading's values, and accuracy is within half a unit of the reading's accuracy |
| LocationSource.StatusChangesAreInert | src/main/java/com/hoccer/android/environment/AndroidLocationProvider.java:164-165 | Any run of status changes leaves the cached reading as it was and raises no `dataChanged` |
| LocationSource.LastSignalDecides | src/main/java/com/hoccer/android/environment/AndroidLocationProvider.java:142-165 | After any sequence of callbacks, the cache is what the last signalling callback set: the new reading, nothing, or the OS's last known reading |
| LocationSource.DisabledClearsCache | src/main/java/com/hoccer/android/environment/AndroidLocationProvider.java:149-154 | After "provider disabled" and any status changes, the cache is empty and the next `updateEnvironment` leaves the environment unchanged, whatever was cached before |
| LocationSource.LocationThread.constructor | src/main/java/com/hoccer/android/environment/AndroidLocationProvider.java:169-170 | A new worker has no stop handler and has received no stop message |
| LocationSource.LocationThread.InstallStopHandler | src/main/java/com/hoccer/android/environment/AndroidLocationProvider.java:190-196 | Once `run` has created the handler, stop messages can be posted; none is posted by this step |
| LocationSource.LocationThread.Shutdown | src/main/java/com/hoccer/android/environment/AndroidLocationProvider.java:207-211 | `shutdown` posts exactly one stop message when the handler exists, and none otherwise |
| LocationSource.LocationProvider.constructor | src/main/java/com/hoccer/android/environment/AndroidLocationProvider.java:72-82 | A new source has its tag and provider name, no cached reading, no worker and no signals |
| LocationSource.LocationProvider.GetGpsProvider | src/main/java/com/hoccer/android/environment/AndroidLocationProvider.java:214-218 | The GPS factory makes a fresh source tagged "gps" on the GPS provider |
| LocationSource.LocationProvider.GetNetworkProvider | src/main/java/com/hoccer/android/environment/AndroidLocationProvider.java:220-224 | The network factory makes a fresh source tagged "network" on the network provider |
| LocationSource.LocationProvider.Start | src/main/java/com/hoccer/android/environment/AndroidLocationProvider.java:88-101 | A fresh worker is created exactly when there is a location manager and its provider list names this source's provider; otherwise the worker reference is unchanged; the cache and signals are untouched |
| LocationSource.LocationProvider.Stop | src/main/java/com/hoccer/android/environment/AndroidLocationProvider.java:107-112 | Afterwards there is no worker; an existing worker was asked to shut down (one message if its handler was ready, none otherwise); with no worker nothing happens, so a second stop is a no-op |
| LocationSource.LocationProvider.UpdateEnvironment | src/main/java/com/hoccer/android/environment/AndroidLocationProvider.java:118-131 | The environment becomes the contribution of the cached reading's node under the tag, or stays as it was when nothing is cached |
| LocationSource.LocationProvider.OnLocationChanged | src/main/java/com/hoccer/android/environment/AndroidLocationProvider.java:143-147 | The cache holds the new reading and one signal is raised |
| LocationSource.LocationProvider.OnProviderDisabled | src/main/java/com/hoccer/android/environment/AndroidLocationProvider.java:150-154 | The cache is cleared and one signal is raised |
| LocationSource.LocationProvider.OnProviderEnabled | src/main/java/com/hoccer/android/environment/AndroidLocationProvider.java:157-161 | The cache becomes the OS's last known reading, possibly none, and one signal is raised |
| LocationSource.LocationProvider.OnStatusChanged | src/main/java/com/hoccer/android/environment/AndroidLocationProvider.java:164-165 | Neither the cache nor the signal count changes |
| WifiSource.IsAvailable | src/main/java/com/hoccer/android/environment/AndroidWifiProvider.java:94-108 | Available exactly when there is a manager and the state is ENABLING, ENABLED or an undocumented value; false for DISABLED, DISABLING, UNKNOWN and whenever there is no manager |
| WifiSource.CollectBssids | src/main/java/com/hoccer/android/environment/AndroidWifiProvider.java:123-127 | The array has one entry per scan result, each that result's BSSID, in scan order |
| WifiSource.WifiEntry | src/main/java/com/hoccer/android/environment/AndroidWifiProvider.java:115-131 | A node is written exactly when the radio is available; it has exactly the keys timestamp and bssids, the given timestamp and one BSSID per scan result in order |
| WifiSource.WifiProvider.constructor | src/main/java/com/hoccer/android/environment/AndroidWifiProvider.java:46-50 | A new source has no manager, no receiver, nothing registered and no signals |
| WifiSource.WifiProvider.Start | src/main/java/com/hoccer/android/environment/AndroidWifiProvider.java:56-71 | With a manager, a fresh receiver is registered and exactly one signal raised; without one, nothing is registered and nothing signalled |
| WifiSource.WifiProvider.Stop | src/main/java/com/hoccer/android/environment/AndroidWifiProvider.java:77-85 | The manager is always dropped, so the source is unavailable in every radio state; the receiver is unregistered and forgotten only when there is one, so a second stop changes nothing |
| WifiSource.WifiProvider.UpdateEnvironment | src/main/java/com/hoccer/android/environment/AndroidWifiProvider.java:114-133 | The environment becomes the contribution of the "wifi" entry: the node when available, otherwise unchanged |
| WifiSource.WifiProvider.OnScanResultsAvailable | src/main/java/com/hoccer/android/environment/AndroidWifiProvider.java:137-140 | A scan-results broadcast raises one signal and changes nothing else |
| KeepAlive.Initial | src/main/java/com/hoccer/android/service/HoccerService.java:28-37 | Before the first keep-alive the client is stopped, nothing is pending and the invariant holds |
| KeepAlive.Scheduled | src/main/java/com/hoccer/android/service/HoccerService.java:88-107 | Afterwards the invariant holds and exactly one shutdown is pending, `delay` ahead; the previous one is cancelled; the result is true exactly when one was pending; nothing but the queue and the reference changes |
| KeepAlive.KeptAlive | src/main/java/com/hoccer/android/service/HoccerService.java:109-115 | Afterwards the client runs, having been started only if it was not, and the only pending shutdown is due at the call's time plus 30 |
| KeepAlive.Terminated | src/main/java/com/hoccer/android/service/HoccerService.java:96-103 | The shutdown task stops the client if it ran, adds one self-stop request, clears the pending reference and is marked done; run as the pending shutdown of a valid state, no task stays live and the invariant holds |
| KeepAlive.FirstDue | src/main/java/com/hoccer/android/service/HoccerService.java:47 | The executor picks the first live task whose deadline has passed, or none when no task is due |
| KeepAlive.FirstDueIsEarliest | src/main/java/com/hoccer/android/service/HoccerService.java:47 | Java's executor orders tasks by deadline, not by scheduling order; the two agree because the invariant allows one live task, so the task picked is the pending shutdown and has the earliest deadline of all live tasks |
| KeepAlive.Ticked | src/main/java/com/hoccer/android/service/HoccerService.java:94-105 | The shutdown fires exactly when one is pending, the executor is not shut down and its deadline has passed: then the client is stopped if it ran, one self-stop is requested and nothing stays pending; otherwise nothing changes |
| KeepAlive.Destroyed | src/main/java/com/hoccer/android/service/HoccerService.java:72-80 | The executor is shut down and the client is stopped, counted as a stop only if it was running |
| KeepAlive.DestroyedStaysQuiet | src/main/java/com/hoccer/android/service/HoccerService.java:76 | After `onDestroy` the executor never fires the shutdown again |
| KeepAlive.Run | src/main/java/com/hoccer/android/service/HoccerService.java:88-115 | Every sequence of keep-alives and executor runs preserves the invariant: at most one shutdown is pending, and it is the referenced one |
| KeepAlive.Debounce | src/main/java/com/hoccer/android/service/HoccerService.java:88-115 | While every executor run comes before the deadline of the latest keep-alive, the client is never stopped or restarted, no self-stop is requested, and the deadline is the latest keep-alive's time plus 30 |
| KeepAlive.ShutdownFiresOnce | src/main/java/com/hoccer/android/service/HoccerService.java:94-105 | Left to the executor, the pending shutdown fires once if some run reaches its deadline and never otherwise: at most one client stop and one self-stop request |
| KeepAlive.IdleShutdownScenario | src/main/java/com/hoccer/android/service/HoccerService.java:69 | Created at t, pinged at t+20, then silent: the client still runs at t+49 and is stopped exactly once, at t+50 |
| KeepAlive.HoccerService.OnCreate | src/main/java/com/hoccer/android/service/HoccerService.java:40-70 | The providers are registered in the order wifi, gps, network; one keep-alive leaves the client started once and a shutdown pending 30 ahead |
| KeepAlive.HoccerService.OnDestroy | src/main/java/com/hoccer/android/service/HoccerService.java:73-80 | The new state is `Destroyed` of the old one |
| KeepAlive.HoccerService.ScheduleStop | src/main/java/com/hoccer/android/service/HoccerService.java:88-107 | The new state and the result are `Scheduled` of the old state |
| KeepAlive.HoccerService.DoKeepAlive | src/main/java/com/hoccer/android/service/HoccerService.java:109-115 | The new state is `KeptAlive` of the old one |
| KeepAlive.HoccerService.Terminate | src/main/java/com/hoccer/android/service/HoccerService.java:96-103 | The shutdown task stops the client if running, requests a self-stop, clears the pending reference and is marked done; run as the pending shutdown, it leaves no live task and keeps the invariant (`Terminated`) |
| KeepAlive.HoccerService.RunTimers | src/main/java/com/hoccer/android/service/HoccerService.java:94-105 | One executor step gives the new state `Ticked` of the old one |

## Left out

- Threads, loopers and handlers in `LocationThread.run`. The worker is a handle with a "stop handler ready" flag and a count of stop messages. The unsynchronised read of `mStopHandler` from another thread is not modelled. The model does show its consequence: a `stop` before the handler exists sends no message and forgets the worker.
- `requestLocationUpdates` with its 15000 ms and 50 m arguments, and `removeUpdates`. Both run inside `run`, which is left out.
- Real-time scheduling and races. Pings and executor runs are sequential events on an integer clock. This leaves out `cancel(false)` racing a task that has already started, and the unsynchronised `mShutdownFuture = null` inside the task.
- KeepAlive.Scheduled, KeepAlive.KeptAlive, KeepAlive.HoccerService.ScheduleStop and KeepAlive.HoccerService.DoKeepAlive require that the executor has not been shut down. On a shut-down executor, `schedule` throws `RejectedExecutionException`, and that path is not modelled.
- Floating point. Java's `double` and `float` readings are reals. `Math.round` is floor of x + 1/2, without its NaN and integer-saturation cases.
- The base class `EnvironmentProvider`. `dataChanged()` is a counter, `getTimestamp()` is a parameter, and the provider's tag is a field.
- The client's internals. This covers starting and stopping its registered providers, building the environment from them, credentials and configuration, peer listeners, and the binder `Connection`. The client is a running flag with start and stop counters, and registration is the list of the registered providers' tags.
- Android system services (`getSystemService`, `LocationManager`, `WifiManager`, `registerReceiver`). Their answers are method parameters. Registration with the context is the source's set of registered receivers.
- Because the location manager is a parameter, `onProviderEnabled` without a location manager (a NullPointerException in Java) is not modelled. A worker is created only when there is a manager, but a later `start` that finds no location service sets the manager to null while an earlier, unstopped worker may still be listening; its `onProviderEnabled` and the end of its `run` would then dereference null.
- `HoccerActivity`, including its 20-second keep-alive timer. The scenario lemma uses that period as an input.
- JSON encoding and logging. The environment is a map from tag to a node, and a node is a map from field name to a value.
