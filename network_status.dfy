/**
 * `DefaultNetworkStatusRepository`: a stored network status, initialised
 * from the notifier, and a listener that reports `true` only when the
 * network becomes connected after not being connected.
 */
module NetworkStatus {
  /** The notifier's status constants, as distinct values. */
  datatype Status = NetworkNotInitialized | NetworkNotConnected | NetworkConnected

  /** What the listener sends for a callback carrying `status` when `stored` is the last stored status. */
  function Emission(stored: Status, status: Status): bool {
    stored != NetworkConnected && status == NetworkConnected
  }

  /** The status stored when the `i`-th callback arrives: the initial one, then the previous callback's. */
  function Previous(initial: Status, statuses: seq<Status>, i: nat): Status
    requires i < |statuses|
  {
    if i == 0 then initial else statuses[i - 1]
  }

  /**
   * What a collector receives for a run of callbacks when the notifier's
   * current status always equals the status the callback carries.
   */
  function EmissionTrace(initial: Status, statuses: seq<Status>): (r: seq<bool>)
    ensures |r| == |statuses|
    ensures forall i :: 0 <= i < |statuses| ==>
              (r[i] <==> Previous(initial, statuses, i) != NetworkConnected && statuses[i] == NetworkConnected)
    decreases |statuses|
  {
    if |statuses| == 0 then []
    else
      var tail := statuses[1..];
      var rest := EmissionTrace(statuses[0], tail);
      var r := [Emission(initial, statuses[0])] + rest;
      assert forall i :: 0 <= i < |statuses| ==>
        (r[i] <==> Previous(initial, statuses, i) != NetworkConnected && statuses[i] == NetworkConnected) by {
        forall i | 0 <= i < |statuses|
          ensures r[i] <==> Previous(initial, statuses, i) != NetworkConnected && statuses[i] == NetworkConnected
        {
          if i > 0 {
            assert r[i] == rest[i - 1];
            assert tail[i - 1] == statuses[i];
            assert Previous(statuses[0], tail, i - 1) == Previous(initial, statuses, i);
            assert rest[i - 1] <==> Previous(statuses[0], tail, i - 1) != NetworkConnected && tail[i - 1] == NetworkConnected;
          }
        }
      }
      r
  }

  /** The status stored after a run of callbacks that the notifier tracks: the last one, or the initial one. */
  function LastStatus(initial: Status, statuses: seq<Status>): Status {
    if |statuses| == 0 then initial else statuses[|statuses| - 1]
  }

  /** One more callback extends the trace by exactly its own emission. */
  lemma EmissionTraceSnoc(initial: Status, statuses: seq<Status>, status: Status)
    ensures EmissionTrace(initial, statuses + [status]) ==
            EmissionTrace(initial, statuses) + [Emission(LastStatus(initial, statuses), status)]
  {
    var longer := statuses + [status];
    var lhs := EmissionTrace(initial, longer);
    var rhs := EmissionTrace(initial, statuses) + [Emission(LastStatus(initial, statuses), status)];
    assert |lhs| == |rhs|;
    forall i | 0 <= i < |lhs|
      ensures lhs[i] == rhs[i]
    {
      assert lhs[i] <==> Previous(initial, longer, i) != NetworkConnected && longer[i] == NetworkConnected;
      if i < |statuses| {
        assert Previous(initial, longer, i) == Previous(initial, statuses, i);
        assert longer[i] == statuses[i];
      } else {
        assert Previous(initial, longer, i) == LastStatus(initial, statuses);
      }
    }
  }

  /** Two consecutive callbacks never both report `true`: a report marks a change to connected. */
  lemma NoConsecutiveTrue(initial: Status, statuses: seq<Status>, i: int)
    requires 0 <= i && i + 1 < |statuses|
    ensures !(EmissionTrace(initial, statuses)[i] && EmissionTrace(initial, statuses)[i + 1])
  {
    var r := EmissionTrace(initial, statuses);
    assert r[i] ==> statuses[i] == NetworkConnected;
    assert r[i + 1] ==> Previous(initial, statuses, i + 1) != NetworkConnected;
  }

  class NetworkStatusNotifier {
    var networkStatus: Status

    constructor (networkStatus: Status)
      ensures this.networkStatus == networkStatus
    {
      this.networkStatus := networkStatus;
    }

    method SetNetworkStatus(status: Status)
      modifies this
      ensures networkStatus == status
    {
      networkStatus := status;
    }
  }

  class DefaultNetworkStatusRepository {
    const notifier: NetworkStatusNotifier
    var networkStatus: Status
    /** What the collector of `networkStateFlow()` has received, oldest first. */
    var sent: seq<bool>

    /** The stored status starts as the notifier's current status. */
    constructor (notifier: NetworkStatusNotifier)
      ensures this.notifier == notifier
      ensures networkStatus == notifier.networkStatus
      ensures sent == []
    {
      this.notifier := notifier;
      networkStatus := NetworkNotInitialized;
      networkStatus := notifier.networkStatus;
      sent := [];
    }

    /**
     * The listener: sends `true` for a change to connected and `false`
     * otherwise, then stores the notifier's current status, which may differ
     * from the status the callback carried.
     */
    method OnNetworkStatusChanged(status: Status)
      modifies this
      ensures sent == old(sent) + [old(networkStatus) != NetworkConnected && status == NetworkConnected]
      ensures networkStatus == notifier.networkStatus
    {
      if networkStatus != NetworkConnected && status == NetworkConnected {
        sent := sent + [true];
      } else {
        sent := sent + [false];
      }
      networkStatus := notifier.networkStatus;
    }
  }

  /**
   * Starting disconnected, the network comes up and the notifier calls back
   * twice: only the first callback reports `true`.
   */
  method ReconnectScenario() returns (received: seq<bool>)
    ensures received == EmissionTrace(NetworkNotConnected, [NetworkConnected, NetworkConnected])
    ensures received == [true, false]
  {
    var notifier := new NetworkStatusNotifier(NetworkNotConnected);
    var repository := new DefaultNetworkStatusRepository(notifier);
    notifier.SetNetworkStatus(NetworkConnected);
    repository.OnNetworkStatusChanged(NetworkConnected);
    repository.OnNetworkStatusChanged(NetworkConnected);
    received := repository.sent;
  }

  /**
   * The stored status follows the notifier, not the callback: a callback
   * carrying "connected" while the notifier still reads "not connected"
   * reports `true` again on the next "connected" callback.
   */
  method StaleNotifierScenario() returns (received: seq<bool>)
    ensures received == [true, true]
  {
    var notifier := new NetworkStatusNotifier(NetworkNotConnected);
    var repository := new DefaultNetworkStatusRepository(notifier);
    repository.OnNetworkStatusChanged(NetworkConnected);
    repository.OnNetworkStatusChanged(NetworkConnected);
    received := repository.sent;
  }

  /**
   * Any run of callbacks in which the notifier already reads the status each
   * callback carries: the collector receives exactly `EmissionTrace`.
   */
  method TrackedRun(initial: Status, statuses: seq<Status>) returns (received: seq<bool>)
    ensures received == EmissionTrace(initial, statuses)
  {
    var notifier := new NetworkStatusNotifier(initial);
    var repository := new DefaultNetworkStatusRepository(notifier);
    var k := 0;
    while k < |statuses|
      invariant 0 <= k <= |statuses|
      invariant repository.notifier == notifier
      invariant repository.sent == EmissionTrace(initial, statuses[..k])
      invariant repository.networkStatus == LastStatus(initial, statuses[..k])
    {
      EmissionTraceSnoc(initial, statuses[..k], statuses[k]);
      assert statuses[..k + 1] == statuses[..k] + [statuses[k]];
      notifier.SetNetworkStatus(statuses[k]);
      repository.OnNetworkStatusChanged(statuses[k]);
      k := k + 1;
    }
    assert statuses[..k] == statuses;
    received := repository.sent;
  }
}
