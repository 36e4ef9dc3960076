/**
 * The Wi-Fi environment source: it lists the BSSIDs of the last scan under
 * the tag "wifi", and only while the radio is usable. It runs no thread of
 * its own; a broadcast receiver tells it when a new scan is available.
 */
module WifiSource {
  import opened Wrappers
  import opened Environment

  /** Tag of the node this source writes. */
  const TAG: string := "wifi"

  /** Android's radio states, as the integers `getWifiState` returns. */
  const WIFI_STATE_DISABLING: int := 0
  const WIFI_STATE_DISABLED: int := 1
  const WIFI_STATE_ENABLING: int := 2
  const WIFI_STATE_ENABLED: int := 3
  const WIFI_STATE_UNKNOWN: int := 4

  /** One entry of the scan list; only its BSSID is read. */
  datatype ScanResult = ScanResult(bssid: string)

  /**
   * `isAvailable`: there is a Wi-Fi manager and the radio is not disabled,
   * being disabled, or in an unknown state. Of the five documented states,
   * that leaves ENABLING and ENABLED; any undocumented value counts as
   * available too.
   */
  function IsAvailable(hasWifiManager: bool, wifiState: int): (b: bool)
    ensures b <==> hasWifiManager
                   && (wifiState == WIFI_STATE_ENABLING || wifiState == WIFI_STATE_ENABLED
                       || !(WIFI_STATE_DISABLING <= wifiState <= WIFI_STATE_UNKNOWN))
  {
    if hasWifiManager then
      match wifiState
      case 1 => false   // WIFI_STATE_DISABLED
      case 0 => false   // WIFI_STATE_DISABLING
      case 4 => false   // WIFI_STATE_UNKNOWN
      case _ => true
    else
      false
  }

  /** The loop that fills the JSON array: one BSSID per scan result, in scan order. */
  method CollectBssids(scanResults: seq<ScanResult>) returns (ids: seq<string>)
    ensures |ids| == |scanResults|
    ensures forall i :: 0 <= i < |ids| ==> ids[i] == scanResults[i].bssid
  {
    ids := [];
    var k := 0;
    while k < |scanResults|
      invariant 0 <= k <= |scanResults|
      invariant |ids| == k
      invariant forall i :: 0 <= i < k ==> ids[i] == scanResults[i].bssid
    {
      ids := ids + [scanResults[k].bssid];
      k := k + 1;
    }
  }

  /** The BSSIDs of a scan list, in scan order. */
  function Bssids(scanResults: seq<ScanResult>): seq<string>
  {
    seq(|scanResults|, i requires 0 <= i < |scanResults| => scanResults[i].bssid)
  }

  /** The node written when the radio is available: a timestamp and the BSSID list. */
  function WifiNode(timestamp: int, bssids: seq<string>): Record
  {
    map["timestamp" := IntField(timestamp), "bssids" := StringList(bssids)]
  }

  /**
   * What `updateEnvironment` has to write: the node holding the timestamp
   * and one BSSID per scan result, in scan order, when the radio is
   * available; nothing otherwise.
   */
  function WifiEntry(hasWifiManager: bool, wifiState: int, scanResults: seq<ScanResult>, timestamp: int): (r: Option<Record>)
    ensures r.Some? <==> IsAvailable(hasWifiManager, wifiState)
    ensures r.Some? ==>
              r.value.Keys == {"timestamp", "bssids"} && r.value["timestamp"] == IntField(timestamp)
              && r.value["bssids"].StringList? && |r.value["bssids"].items| == |scanResults|
              && forall i :: 0 <= i < |scanResults| ==> r.value["bssids"].items[i] == scanResults[i].bssid
  {
    if IsAvailable(hasWifiManager, wifiState) then Some(WifiNode(timestamp, Bssids(scanResults))) else None
  }

  /** An opaque broadcast receiver registered for scan-result broadcasts. */
  class ScanResultReceiver {
    constructor ()
    {
    }
  }

  class WifiProvider {
    /** Whether `mWifiManager` is set. */
    var hasWifiManager: bool
    var receiver: ScanResultReceiver?
    /** The receivers this source has registered with its context and not yet unregistered. */
    var registered: set<ScanResultReceiver>
    /** How many times `dataChanged` has been raised. */
    var changeSignals: nat

    constructor ()
      ensures !hasWifiManager && receiver == null && registered == {} && changeSignals == 0
    {
      hasWifiManager := false;
      receiver := null;
      registered := {};
      changeSignals := 0;
    }

    /**
     * `start`: takes the Wi-Fi manager the system offers. With one, a fresh
     * receiver is registered and `dataChanged` raised once; without one,
     * nothing is registered and nothing signalled.
     */
    method Start(wifiServicePresent: bool)
      modifies this
      ensures hasWifiManager == wifiServicePresent
      ensures wifiServicePresent ==>
                receiver != null && fresh(receiver)
                && registered == old(registered) + {receiver}
                && changeSignals == old(changeSignals) + 1
      ensures !wifiServicePresent ==>
                receiver == old(receiver) && registered == old(registered)
                && changeSignals == old(changeSignals)
    {
      hasWifiManager := wifiServicePresent;
      if hasWifiManager {
        receiver := new ScanResultReceiver();
        registered := registered + {receiver};
        changeSignals := changeSignals + 1;
      }
    }

    /**
     * `stop`: always drops the manager; unregisters and forgets the receiver
     * only when there is one, so a second `stop` changes nothing.
     */
    method Stop()
      modifies this
      ensures !hasWifiManager && receiver == null
      ensures forall wifiState :: !IsAvailable(hasWifiManager, wifiState)
      ensures registered == if old(receiver) != null then old(registered) - {old(receiver)} else old(registered)
      ensures changeSignals == old(changeSignals)
    {
      hasWifiManager := false;
      if receiver != null {
        registered := registered - {receiver};
        receiver := null;
      }
    }

    /**
     * `updateEnvironment`, given the radio state, the scan list and the
     * provider's timestamp at the time of the call: when the radio is
     * available, puts the "wifi" node; otherwise leaves the environment as
     * it was.
     */
    method UpdateEnvironment(env: JsonObject, wifiState: int, scanResults: seq<ScanResult>, timestamp: int)
      modifies env
      ensures env.entries == Contribute(old(env.entries), TAG, WifiEntry(hasWifiManager, wifiState, scanResults, timestamp))
    {
      if IsAvailable(hasWifiManager, wifiState) {
        var idArray := CollectBssids(scanResults);
        assert idArray == Bssids(scanResults);
        var root := WifiNode(timestamp, idArray);
        env.Put(TAG, root);
      }
    }

    /** `ScanResultReceiver.onReceive`: only raises `dataChanged`. */
    method OnScanResultsAvailable()
      modifies this
      ensures changeSignals == old(changeSignals) + 1
      ensures hasWifiManager == old(hasWifiManager) && receiver == old(receiver) && registered == old(registered)
    {
      changeSignals := changeSignals + 1;
    }
  }
}
