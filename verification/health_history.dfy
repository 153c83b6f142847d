/** `HealthHistory`: health snapshots keyed by their timestamp. */
module HealthHistory {
  import Maxima
  import opened Wrappers

  datatype ProcessState = Running | Starting | Stopped | Stopping | Paused | Orphaned | Failed | Unknown

  /** A health snapshot: its timestamp, the process state and id, and a status per component. */
  datatype Health = Health(timestamp: real, processState: ProcessState, processId: int, status: map<string, bool>)

  type History = map<real, Health>

  /** The `ValueError`s the history raises. */
  datatype HealthError = NonPositiveTimestamp | EmptyHistory

  /**
   * `add_health_data`: a snapshot whose timestamp is not positive is refused
   * (the history is left as it was); otherwise it is stored under its
   * timestamp, replacing any snapshot there.
   */
  function AddHealthData(h: History, x: Health): (r: Result<History, HealthError>)
    ensures r.Failure? <==> !(x.timestamp > 0.0)
    ensures r.Failure? ==> r.error == NonPositiveTimestamp
    ensures r.Success? ==> && r.value.Keys == h.Keys + {x.timestamp}
                           && r.value[x.timestamp] == x
                           && forall t :: t in h && t != x.timestamp ==> r.value[t] == h[t]
  {
    if !(x.timestamp > 0.0) then Failure(NonPositiveTimestamp)
    else Success(h[x.timestamp := x])
  }

  /** The largest timestamp, as `max(self.health_history.keys())`. */
  function MaxTimestamp(h: History): (t: real)
    requires exists w :: w in h
    ensures t in h && forall u :: u in h ==> u <= t
  {
    Maxima.MaxExists(h.Keys);
    var t :| t in h && forall u :: u in h ==> u <= t;
    t
  }

  /** `get_health_data`: the snapshot with the largest timestamp; an empty history raises. */
  function GetHealthData(h: History): (r: Result<Health, HealthError>)
    ensures r.Failure? <==> h == map[]
    ensures r.Failure? ==> r.error == EmptyHistory
    ensures r.Success? ==> exists t :: t in h && h[t] == r.value && forall u :: u in h ==> u <= t
  {
    if exists w :: w in h then Success(h[MaxTimestamp(h)])
    else Failure(EmptyHistory)
  }

  /** A snapshot newer than every stored one is what the history returns next. */
  lemma NewestIsReturned(h: History, x: Health)
    requires x.timestamp > 0.0
    requires forall t :: t in h ==> t <= x.timestamp
    ensures AddHealthData(h, x).Success?
    ensures GetHealthData(AddHealthData(h, x).value) == Success(x)
  {
    var h1 := AddHealthData(h, x).value;
    assert x.timestamp in h1;
    var t := MaxTimestamp(h1);
    assert t == x.timestamp;
  }

  /** A snapshot older than the newest stored one does not change what the history returns. */
  lemma OlderDoesNotChangeLatest(h: History, x: Health)
    requires x.timestamp > 0.0
    requires exists t :: t in h && x.timestamp < t
    ensures AddHealthData(h, x).Success?
    ensures GetHealthData(AddHealthData(h, x).value) == GetHealthData(h)
  {
    var h1 := AddHealthData(h, x).value;
    var w :| w in h && x.timestamp < w;
    var m := MaxTimestamp(h);
    var m1 := MaxTimestamp(h1);
    assert m in h1 && m <= m1;
    assert m1 != x.timestamp;
    assert m1 in h && m1 <= m;
  }
}
