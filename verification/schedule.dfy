/**
 * When the worker and the manager check for updates: the interval, whether a check
 * is due, and what one check decides (`_checkInternalUpdates`, `checkUpdates`,
 * `_checkExternalUpdates`, `#checkExternalUpdates`).
 */
module Schedule {
  import opened Wrappers
  import opened Json

  /** A day, the interval used when none is stored. */
  const DaySeconds: int := 24 * 60 * 60

  /** The check interval in seconds: the stored number of hours, or a day when that is 0 or no number. */
  function IntervalSeconds(hours: Option<Value>): (s: int)
    ensures s != 0
    ensures ToNumber(hours).Some? && ToNumber(hours).value != 0 ==> s == ToNumber(hours).value * 3600
    ensures !(ToNumber(hours).Some? && ToNumber(hours).value != 0) ==> s == DaySeconds
  {
    match ToNumber(hours)
    case Some(n) => if n * 60 * 60 != 0 then n * 60 * 60 else DaySeconds
    case None => DaySeconds
  }

  /** `Math.floor(Date.now() / 1000)`. */
  function Seconds(nowMs: nat): nat {
    nowMs / 1000
  }

  /**
   * The interval has passed since the last check: `now - interval - last >= 0`, where
   * a last check that is no number (`undefined`, an object) makes the difference NaN.
   */
  predicate Due(now: int, interval: int, last: Option<Value>) {
    var n := ToNumber(last);
    n.Some? && now - interval - n.value >= 0
  }

  /** Which way a check of the catalogue goes. */
  datatype Branch =
    | Initial      // nothing downloaded yet: download without asking the server
    | HeaderCheck  // due or forced: ask the server for the catalogue's Last-Modified header
    | NotDue

  /**
   * What one check decides: the branch, whether to download the catalogue, the
   * Last-Modified value to save with it, the interval, whether the time of the
   * check is saved, and whether the next check is scheduled.
   */
  datatype Plan = Plan(branch: Branch, refresh: bool, lastModified: Value, interval: int, stamp: bool, reschedule: bool)

  /** The text a request answered, as a value: null when there was no answer. */
  function Answer(r: Option<string>): Value {
    match r
    case Some(s) => Str(s)
    case None => Null
  }

  /** The plan once the branch, the header and the pending timer are known. */
  function Decide(branch: Branch, refresh: bool, lastModified: Value, interval: int, pending: bool, daemon: bool): (p: Plan)
    ensures p.branch == branch && p.refresh == refresh && p.interval == interval
    ensures p.stamp <==> !branch.NotDue? || !pending
    ensures p.reschedule <==> p.stamp && daemon
  {
    var stillPending := branch.NotDue? && pending;
    Plan(branch, refresh, lastModified, interval, !stillPending, !stillPending && daemon)
  }

  /**
   * After a check saved its time, the next check is due exactly once the interval
   * has passed again.
   */
  lemma DueAgainAfterInterval(stamped: int, interval: int, later: int)
    ensures Due(later, interval, Some(Num(stamped))) <==> later >= stamped + interval
  {
  }

  /** `x !== y` for a header value read from the network and a stored value that may be undefined. */
  predicate SameAsStored(x: Value, stored: Option<Value>) {
    stored.Some? && StrictEq(x, stored.value)
  }

  /**
   * A check of the catalogue: when something is `missing`, download at once; when
   * `due` or forced, ask for the Last-Modified header and download when it differs
   * from the stored one or the check is forced; otherwise do nothing. A branch that
   * ran clears the pending timer; without a pending timer the time of the check is
   * saved and, for a daemon, the next check scheduled.
   */
  function PlanCheck(missing: bool, due: bool, force: bool, header: Option<string>, stored: Option<Value>,
                     interval: int, pending: bool, daemon: bool): (p: Plan)
    ensures p.branch.Initial? <==> missing
    ensures p.branch.HeaderCheck? <==> !missing && (due || force)
    ensures p.branch.Initial? ==> p.refresh && p.lastModified == Null
    ensures p.branch.HeaderCheck? ==> p.lastModified == Answer(header) && (p.refresh <==> force || !SameAsStored(Answer(header), stored))
    ensures p.branch.NotDue? ==> !p.refresh
    ensures p.interval == interval
    ensures p.stamp <==> !p.branch.NotDue? || !pending
    ensures p.reschedule <==> p.stamp && daemon
  {
    if missing then Decide(Initial, true, Null, interval, pending, daemon)
    else if due || force then
      var answer := Answer(header);
      Decide(HeaderCheck, !SameAsStored(answer, stored) || force, answer, interval, pending, daemon)
    else Decide(NotDue, false, Null, interval, pending, daemon)
  }

  /** A forced check always downloads the catalogue. */
  lemma ForcedCheckDownloads(missing: bool, due: bool, header: Option<string>, stored: Option<Value>, interval: int, pending: bool, daemon: bool)
    ensures PlanCheck(missing, due, true, header, stored, interval, pending, daemon).refresh
  {
  }

  /** The check that a timer runs. */
  datatype Task = CatalogueCheck | ScriptsCheck

  /**
   * What one round of checks leaves: the objects saved in order, whether it failed
   * with an error, whether a timer is still pending afterwards, and the check a new
   * timer was set for.
   */
  datatype Round = Round(writes: seq<Record>, failed: bool, pending: bool, scheduled: Option<Task>)
}
