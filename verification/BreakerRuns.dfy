/**
 Whole runs of the circuit breaker with overlapping calls and a clock that never goes back: at most one probe, the
 spacing of inner calls during an outage, and the pruned history against the full log of outcomes.
 */
module BreakerRuns {
  import opened Base
  import opened CircuitBreaker

  datatype Event =
    | StartCall(now: int)
    | FinishCall(now: int, ok: bool)
    | SettleProbe(now: int, ok: bool)
    | ClearProbe
    | ReadState(now: int)

  /** `calls` and `probing` count inner calls in flight, `settled` the probes not cleared yet. */
  datatype World = World(b: Breaker, clock: int, calls: nat, probing: nat, settled: nat)

  predicate CanHappen(w: World, e: Event) {
    && (e.ClearProbe? || e.now >= w.clock)
    && (e.FinishCall? ==> w.calls > 0)
    && (e.SettleProbe? ==> w.probing > 0)
    && (e.ClearProbe? ==> w.settled > 0)
  }

  function Next(cfg: Config, w: World, e: Event): World
    requires CanHappen(w, e)
  {
    match e
    case StartCall(now) =>
      var (b', decision) := Started(cfg, w.b, now);
      World(b', now, w.calls + if decision == CallInner then 1 else 0,
            w.probing + if decision == Probe then 1 else 0, w.settled)
    case FinishCall(now, ok) => w.(b := Recorded(cfg, w.b, Outcome(now, ok)), clock := now, calls := w.calls - 1)
    case SettleProbe(now, ok) =>
      w.(b := ProbeSettled(w.b, now, ok), clock := now, probing := w.probing - 1, settled := w.settled + 1)
    case ClearProbe => w.(b := w.b.(probeInFlight := false), settled := w.settled - 1)
    case ReadState(now) => w.(b := Transitioned(cfg, w.b, now), clock := now)
  }

  predicate IsStep(cfg: Config, w: World, e: Event, w': World) {
    CanHappen(w, e) && w' == Next(cfg, w, e)
  }

  predicate IsRun(cfg: Config, ws: seq<World>, es: seq<Event>) {
    && |ws| == |es| + 1
    && ws[0].b == FRESH_BREAKER && ws[0].calls == ws[0].probing == ws[0].settled == 0
    && forall i | 0 <= i < |es| :: IsStep(cfg, ws[i], es[i], ws[i + 1])
  }

  // ---------- one probe at a time ----------

  predicate Consistent(cfg: Config, w: World) {
    && w.probing + w.settled == (if w.b.probeInFlight then 1 else 0)
    && (w.probing > 0 ==> w.b.state == HalfOpen)
    && (w.b.state == Closed <==> w.b.openedAt == None)
    && (w.b.openedAt.Some? ==> w.b.openedAt.value <= w.clock)
    && (w.b.state == HalfOpen && w.probing == 0 ==> w.clock - w.b.openedAt.value >= cfg.openMs)
  }

  lemma StepKeepsConsistent(cfg: Config, w: World, e: Event)
    requires Consistent(cfg, w) && CanHappen(w, e)
    ensures Consistent(cfg, Next(cfg, w, e))
  {
  }

  lemma {:induction false} RunIsConsistent(cfg: Config, ws: seq<World>, es: seq<Event>, k: nat)
    requires IsRun(cfg, ws, es) && k < |ws|
    ensures Consistent(cfg, ws[k])
  {
    if k > 0 {
      RunIsConsistent(cfg, ws, es, k - 1);
      assert IsStep(cfg, ws[k - 1], es[k - 1], ws[k - 1 + 1]);
      StepKeepsConsistent(cfg, ws[k - 1], es[k - 1]);
    }
  }

  /** At most one probe is in flight, and while it is the breaker is half-open. */
  lemma OneProbeAtATime(cfg: Config, ws: seq<World>, es: seq<Event>, k: nat)
    requires IsRun(cfg, ws, es) && k < |ws|
    ensures ws[k].probing <= 1
    ensures ws[k].probing > 0 ==> ws[k].b.state == HalfOpen && ws[k].b.probeInFlight
  {
    RunIsConsistent(cfg, ws, es, k);
  }

  // ---------- who gets through ----------

  predicate StartsInner(cfg: Config, w: World, e: Event) {
    e.StartCall? && Started(cfg, w.b, e.now).1 != Reject
  }

  predicate Trips(cfg: Config, w: World, e: Event) {
    e.FinishCall? && w.b.state == Closed && Recorded(cfg, w.b, Outcome(e.now, e.ok)).state == Open
  }

  /** During an outage a call gets through, as the probe, exactly when the open time is over and no probe is pending. */
  lemma OutageLetsOneThrough(cfg: Config, ws: seq<World>, es: seq<Event>, k: nat)
    requires IsRun(cfg, ws, es) && k < |es| && es[k].StartCall? && ws[k].b.state != Closed
    ensures ws[k].b.openedAt.Some?
    ensures StartsInner(cfg, ws[k], es[k]) <==>
            es[k].now - ws[k].b.openedAt.value >= cfg.openMs && !ws[k].b.probeInFlight
    ensures StartsInner(cfg, ws[k], es[k]) <==> ws[k + 1].probing == ws[k].probing + 1
  {
    RunIsConsistent(cfg, ws, es, k);
    assert IsStep(cfg, ws[k], es[k], ws[k + 1]);
  }

  // ---------- the outage bound ----------

  /** Nothing has reached the inner service since `since`, except a probe that is still running. */
  predicate QuietSince(cfg: Config, w: World, since: int) {
    && w.b.state != Closed && w.clock >= since
    && (w.probing == 0 ==> w.b.openedAt.Some? && w.b.openedAt.value >= since)
  }

  lemma StepKeepsQuiet(cfg: Config, w: World, e: Event, since: int)
    requires Consistent(cfg, w) && CanHappen(w, e) && QuietSince(cfg, w, since)
    requires !(e.SettleProbe? && e.ok)
    ensures Consistent(cfg, Next(cfg, w, e)) && QuietSince(cfg, Next(cfg, w, e), since)
  {
    StepKeepsConsistent(cfg, w, e);
  }

  /** Event `i` trips the breaker or starts a probe, and no probe succeeds between `i` and `j`. */
  predicate SameOutage(cfg: Config, ws: seq<World>, es: seq<Event>, i: nat, j: nat)
    requires |ws| == |es| + 1
  {
    && i < j <= |es|
    && (Trips(cfg, ws[i], es[i]) || (StartsInner(cfg, ws[i], es[i]) && ws[i].b.state != Closed))
    && forall k | i < k < j :: !(es[k].SettleProbe? && es[k].ok)
  }

  lemma {:induction false} OutageStaysQuiet(cfg: Config, ws: seq<World>, es: seq<Event>, i: nat, j: nat)
    requires IsRun(cfg, ws, es) && SameOutage(cfg, ws, es, i, j)
    ensures QuietSince(cfg, ws[j], es[i].now)
    decreases j - i
  {
    RunIsConsistent(cfg, ws, es, j - 1);
    assert IsStep(cfg, ws[j - 1], es[j - 1], ws[j - 1 + 1]);
    if j > i + 1 {
      OutageStaysQuiet(cfg, ws, es, i, j - 1);
      StepKeepsQuiet(cfg, ws[j - 1], es[j - 1], es[i].now);
    }
  }

  /** From a trip until a probe succeeds, inner calls start at least `openMs` after the trip and after one another. */
  lemma OutageBound(cfg: Config, ws: seq<World>, es: seq<Event>, i: nat, j: nat)
    requires IsRun(cfg, ws, es) && j < |es| && SameOutage(cfg, ws, es, i, j)
    requires StartsInner(cfg, ws[j], es[j])
    ensures es[j].now - es[i].now >= cfg.openMs
  {
    OutageStaysQuiet(cfg, ws, es, i, j);
    RunIsConsistent(cfg, ws, es, j);
    OutageLetsOneThrough(cfg, ws, es, j);
  }

  // ---------- late outcomes ----------

  /** Only a trip and a settling probe move `openedAt`; an outcome that arrives late leaves the outage alone. */
  lemma LateOutcomesChangeNothing(cfg: Config, ws: seq<World>, es: seq<Event>, k: nat)
    requires IsRun(cfg, ws, es) && k < |es|
    ensures es[k].FinishCall? && ws[k].b.state != Closed ==>
              ws[k + 1].b == ws[k].b.(history := ws[k + 1].b.history)
    ensures ws[k + 1].b.openedAt != ws[k].b.openedAt ==>
              || (Trips(cfg, ws[k], es[k]) && ws[k + 1].b.openedAt == Some(es[k].now))
              || (es[k].SettleProbe? && ws[k + 1].b.openedAt == if es[k].ok then None else Some(es[k].now))
  {
    assert IsStep(cfg, ws[k], es[k], ws[k + 1]);
  }

  // ---------- the buffer and the log ----------

  /** Every outcome recorded since a probe last succeeded, among the first `k` events. */
  function Log(es: seq<Event>, k: nat): seq<Outcome>
    requires k <= |es|
  {
    if k == 0 then []
    else match es[k - 1]
      case FinishCall(now, ok) => Log(es, k - 1) + [Outcome(now, ok)]
      case SettleProbe(_, true) => []
      case _ => Log(es, k - 1)
  }

  function Recent(log: seq<Outcome>, cutoff: int): seq<Outcome> {
    if log == [] then []
    else Recent(log[..|log| - 1], cutoff) + if log[|log| - 1].t >= cutoff then [log[|log| - 1]] else []
  }

  /** The outcomes within the window that ends with the last one. */
  function InWindow(cfg: Config, log: seq<Outcome>): seq<Outcome> {
    if log == [] then [] else Recent(log, log[|log| - 1].t - cfg.windowMs)
  }

  predicate Sorted(log: seq<Outcome>) {
    forall i, j | 0 <= i < j < |log| :: log[i].t <= log[j].t
  }

  lemma RecentOfLonger(log: seq<Outcome>, o: Outcome, cutoff: int)
    ensures Recent(log + [o], cutoff) == Recent(log, cutoff) + if o.t >= cutoff then [o] else []
  {
    assert (log + [o])[..|log|] == log;
  }

  lemma {:induction false} RecentOfNone(log: seq<Outcome>, cutoff: int)
    requires forall i | 0 <= i < |log| :: log[i].t < cutoff
    ensures Recent(log, cutoff) == []
  {
    if log != [] {
      RecentOfNone(log[..|log| - 1], cutoff);
    }
  }

  lemma {:induction false} RecentOfAll(log: seq<Outcome>, cutoff: int)
    requires forall i | 0 <= i < |log| :: log[i].t >= cutoff
    ensures Recent(log, cutoff) == log
  {
    if log != [] {
      RecentOfAll(log[..|log| - 1], cutoff);
    }
  }

  lemma {:induction false} RecentFromFirst(log: seq<Outcome>, cutoff: int)
    requires log != [] && log[0].t < cutoff
    ensures Recent(log, cutoff) == Recent(log[1..], cutoff)
  {
    if |log| > 1 {
      RecentFromFirst(log[..|log| - 1], cutoff);
      assert log[..|log| - 1][1..] == log[1..][..|log| - 2];
    } else {
      RecentOfNone(log, cutoff);
    }
  }

  /** Dropping old entries from the front of a sorted history drops all old entries. */
  lemma {:induction false} DropOldIsRecent(log: seq<Outcome>, cutoff: int)
    requires Sorted(log)
    ensures DropOld(log, cutoff) == Recent(log, cutoff)
  {
    if log != [] && log[0].t < cutoff {
      DropOldIsRecent(log[1..], cutoff);
      RecentFromFirst(log, cutoff);
    } else {
      assert forall i | 0 <= i < |log| :: log[i].t >= cutoff;
      RecentOfAll(log, cutoff);
    }
  }

  /** An earlier filtering is subsumed by a later one. */
  lemma {:induction false} RecentTwice(log: seq<Outcome>, earlier: int, later: int)
    requires earlier <= later
    ensures Recent(Recent(log, earlier), later) == Recent(log, later)
  {
    if log != [] {
      var shorter, last := log[..|log| - 1], log[|log| - 1];
      RecentTwice(shorter, earlier, later);
      RecentOfLonger(Recent(shorter, earlier), last, later);
      assert Recent(shorter, earlier) + [] == Recent(shorter, earlier);
    }
  }

  lemma {:induction false} RecentIsSorted(log: seq<Outcome>, cutoff: int)
    requires Sorted(log)
    ensures Sorted(Recent(log, cutoff))
    ensures forall o | o in Recent(log, cutoff) :: o in log
  {
    if log != [] {
      var shorter, last := log[..|log| - 1], log[|log| - 1];
      RecentIsSorted(shorter, cutoff);
      forall i | 0 <= i < |Recent(shorter, cutoff)| ensures Recent(shorter, cutoff)[i].t <= last.t {
        assert Recent(shorter, cutoff)[i] in shorter;
      }
    }
  }

  predicate LogFits(cfg: Config, w: World, log: seq<Outcome>) {
    && Sorted(log) && (log != [] ==> log[|log| - 1].t <= w.clock)
    && w.b.history == InWindow(cfg, log)
    && (w.b.state == Closed ==> !TooManyFailures(cfg, InWindow(cfg, log)))
  }

  lemma WindowIsSorted(cfg: Config, log: seq<Outcome>, o: Outcome)
    requires Sorted(log) && (log != [] ==> log[|log| - 1].t <= o.t)
    ensures Sorted(InWindow(cfg, log) + [o])
  {
    var kept := InWindow(cfg, log);
    if log != [] {
      RecentIsSorted(log, log[|log| - 1].t - cfg.windowMs);
      forall i | 0 <= i < |kept| ensures kept[i].t <= o.t {
        assert kept[i] in log;
      }
    }
  }

  lemma RecentOfWindow(cfg: Config, log: seq<Outcome>, cutoff: int)
    requires log != [] ==> log[|log| - 1].t - cfg.windowMs <= cutoff
    ensures Recent(InWindow(cfg, log), cutoff) == Recent(log, cutoff)
  {
    if log != [] {
      RecentTwice(log, log[|log| - 1].t - cfg.windowMs, cutoff);
    }
  }

  lemma WindowOfLonger(cfg: Config, log: seq<Outcome>, o: Outcome)
    ensures InWindow(cfg, log + [o]) == Recent(log + [o], o.t - cfg.windowMs)
  {
    assert (log + [o])[|log + [o]| - 1] == o;
  }

  /** Pushing an outcome and pruning the buffer is filtering the longer log. */
  lemma PruneKeepsLog(cfg: Config, log: seq<Outcome>, o: Outcome)
    requires Sorted(log) && (log != [] ==> log[|log| - 1].t <= o.t)
    ensures DropOld(InWindow(cfg, log) + [o], o.t - cfg.windowMs) == InWindow(cfg, log + [o])
  {
    var kept, cutoff := InWindow(cfg, log), o.t - cfg.windowMs;
    var now := if o.t >= cutoff then [o] else [];
    calc {
      DropOld(kept + [o], cutoff);
      { WindowIsSorted(cfg, log, o); DropOldIsRecent(kept + [o], cutoff); }
      Recent(kept + [o], cutoff);
      { RecentOfLonger(kept, o, cutoff); }
      Recent(kept, cutoff) + now;
      { RecentOfWindow(cfg, log, cutoff); }
      Recent(log, cutoff) + now;
      { RecentOfLonger(log, o, cutoff); }
      Recent(log + [o], cutoff);
      { WindowOfLonger(cfg, log, o); }
      InWindow(cfg, log + [o]);
    }
  }

  lemma RecordFitsLog(cfg: Config, w: World, o: Outcome, log: seq<Outcome>)
    requires LogFits(cfg, w, log) && o.t >= w.clock
    ensures LogFits(cfg, w.(b := Recorded(cfg, w.b, o), clock := o.t), log + [o])
  {
    PruneKeepsLog(cfg, log, o);
  }

  lemma {:induction false} RunFitsLog(cfg: Config, ws: seq<World>, es: seq<Event>, k: nat)
    requires IsRun(cfg, ws, es) && k < |ws|
    ensures LogFits(cfg, ws[k], Log(es, k))
  {
    if k > 0 {
      var w, e, log := ws[k - 1], es[k - 1], Log(es, k - 1);
      RunFitsLog(cfg, ws, es, k - 1);
      assert IsStep(cfg, ws[k - 1], es[k - 1], ws[k - 1 + 1]);
      if e.FinishCall? {
        RecordFitsLog(cfg, w, Outcome(e.now, e.ok), log);
      } else if !(e.SettleProbe? && e.ok) {
        QuietStepFitsLog(cfg, w, e, log);
      }
    }
  }

  lemma QuietStepFitsLog(cfg: Config, w: World, e: Event, log: seq<Outcome>)
    requires LogFits(cfg, w, log) && CanHappen(w, e) && !e.FinishCall? && !(e.SettleProbe? && e.ok)
    ensures LogFits(cfg, Next(cfg, w, e), log)
  {
    assert Next(cfg, w, e).b.history == w.b.history;
  }

  /** The ring buffer always equals the full log since the last successful probe, cut to the window. */
  lemma HistoryIsLogInWindow(cfg: Config, ws: seq<World>, es: seq<Event>, k: nat)
    requires IsRun(cfg, ws, es) && k < |ws|
    ensures ws[k].b.history == InWindow(cfg, Log(es, k))
  {
    RunFitsLog(cfg, ws, es, k);
  }

  /** A closed breaker trips exactly when the full log, cut to the window, holds too many failures. */
  lemma TripsByFullCount(cfg: Config, ws: seq<World>, es: seq<Event>, k: nat)
    requires IsRun(cfg, ws, es) && k < |es| && es[k].FinishCall? && ws[k].b.state == Closed
    ensures var h := InWindow(cfg, Log(es, k + 1));
            ws[k + 1].b.state == Open <==> Exceeds(cfg, |FailedIn(h)|, |h|)
    ensures ws[k + 1].b.state != HalfOpen
  {
    TripsOnFailed(cfg, InWindow(cfg, Log(es, k + 1)));
    RunFitsLog(cfg, ws, es, k + 1);
    assert IsStep(cfg, ws[k], es[k], ws[k + 1]);
  }

  /** The breaker is never left closed with too many failures in the window. */
  lemma NeverLeftClosed(cfg: Config, ws: seq<World>, es: seq<Event>, k: nat)
    requires IsRun(cfg, ws, es) && k < |ws|
    requires var h := InWindow(cfg, Log(es, k)); Exceeds(cfg, |FailedIn(h)|, |h|)
    ensures ws[k].b.state != Closed
  {
    TripsOnFailed(cfg, InWindow(cfg, Log(es, k)));
    RunFitsLog(cfg, ws, es, k);
  }

  // ---------- the trip, counted over the events ----------

  /** Event `i`, before `k`, is an outcome not older than `from`, and no probe has succeeded since. */
  predicate Counts(es: seq<Event>, k: nat, from: int, i: nat)
    requires k <= |es|
  {
    && i < k && es[i].FinishCall? && es[i].now >= from
    && forall j | i < j < k :: !(es[j].SettleProbe? && es[j].ok)
  }

  ghost function Outcomes(es: seq<Event>, k: nat, from: int): set<nat>
    requires k <= |es|
    ensures forall i | i in Outcomes(es, k, from) :: i < |es| && es[i].FinishCall?
  {
    set i: nat | i < k && Counts(es, k, from, i)
  }

  ghost function FailedOf(es: seq<Event>, events: set<nat>): set<nat>
    requires forall i | i in events :: i < |es| && es[i].FinishCall?
  {
    set i | i in events && !es[i].ok
  }

  lemma EventOutsideLog(es: seq<Event>, k: nat, from: int)
    requires 0 < k <= |es|
    ensures var before := Outcomes(es, k - 1, from);
            Outcomes(es, k, from) == match es[k - 1]
              case FinishCall(now, _) => if now >= from then before + {k - 1} else before
              case SettleProbe(_, true) => {}
              case _ => before
  {
    forall i: nat | i < k - 1 ensures Counts(es, k, from, i) <==> Counts(es, k - 1, from, i) && !(es[k - 1].SettleProbe? && es[k - 1].ok) {
    }
  }

  /** The log, cut at any time, holds one entry for every outcome that counts, and as many failures. */
  lemma {:induction false} LogIsOutcomes(es: seq<Event>, k: nat, from: int)
    requires k <= |es|
    ensures |Recent(Log(es, k), from)| == |Outcomes(es, k, from)|
    ensures Failures(Recent(Log(es, k), from)) == |FailedOf(es, Outcomes(es, k, from))|
  {
    if k == 0 {
      assert Outcomes(es, k, from) == {};
    } else {
      LogIsOutcomes(es, k - 1, from);
      EventOutsideLog(es, k, from);
      LogStep(es, k, from);
    }
  }

  lemma LogStep(es: seq<Event>, k: nat, from: int)
    requires 0 < k <= |es|
    requires |Recent(Log(es, k - 1), from)| == |Outcomes(es, k - 1, from)|
    requires Failures(Recent(Log(es, k - 1), from)) == |FailedOf(es, Outcomes(es, k - 1, from))|
    ensures |Recent(Log(es, k), from)| == |Outcomes(es, k, from)|
    ensures Failures(Recent(Log(es, k), from)) == |FailedOf(es, Outcomes(es, k, from))|
  {
    EventOutsideLog(es, k, from);
    var e, log := es[k - 1], Log(es, k - 1);
    var before, after := FailedOf(es, Outcomes(es, k - 1, from)), FailedOf(es, Outcomes(es, k, from));
    match e {
      case FinishCall(now, ok) =>
        RecentOfLonger(log, Outcome(now, ok), from);
        if now >= from {
          var kept := Recent(log, from);
          assert (kept + [Outcome(now, ok)])[..|kept|] == kept;
          assert after == if ok then before else before + {k - 1};
        } else {
          assert Recent(log, from) + [] == Recent(log, from);
        }
      case SettleProbe(_, true) =>
        assert after == {};
      case _ =>
    }
  }

  /** The window ends with the outcome of event `m`, the last one before `k` unless a probe succeeded since. */
  predicate LastOutcome(es: seq<Event>, m: nat, k: nat) {
    && m < k <= |es| && es[m].FinishCall?
    && forall j | m < j < k :: !es[j].FinishCall? && !(es[j].SettleProbe? && es[j].ok)
  }

  lemma {:induction false} LogEndsWith(es: seq<Event>, m: nat, k: nat)
    requires LastOutcome(es, m, k)
    ensures Log(es, k) == Log(es, m) + [Outcome(es[m].now, es[m].ok)]
    decreases k
  {
    if k > m + 1 {
      LogEndsWith(es, m, k - 1);
    }
  }

  /** What trips a breaker, said of the outcomes themselves: enough of them failed, and more than the given share. */
  lemma TooManyIsCounted(cfg: Config, es: seq<Event>, m: nat, k: nat)
    requires LastOutcome(es, m, k)
    ensures var all := Outcomes(es, k, es[m].now - cfg.windowMs);
            var h := InWindow(cfg, Log(es, k));
            Exceeds(cfg, |FailedIn(h)|, |h|) <==> Exceeds(cfg, |FailedOf(es, all)|, |all|)
  {
    FailuresAreCounted(InWindow(cfg, Log(es, k)));
    LogEndsWith(es, m, k);
    LogIsOutcomes(es, k, es[m].now - cfg.windowMs);
  }

  /**
   In any run, a call that ends while the breaker is closed opens it if and only if, of the outcomes in the window that
   ends now and since the last successful probe, at least `minFailures` failed, and more than the failure rate.
   */
  lemma OpensByFailedCalls(cfg: Config, ws: seq<World>, es: seq<Event>, k: nat)
    requires IsRun(cfg, ws, es) && k < |es| && es[k].FinishCall? && ws[k].b.state == Closed
    ensures var all := Outcomes(es, k + 1, es[k].now - cfg.windowMs);
            ws[k + 1].b.state == Open <==> Exceeds(cfg, |FailedOf(es, all)|, |all|)
    ensures ws[k + 1].b.state == Open ==> ws[k + 1].b.openedAt == Some(es[k].now)
    ensures ws[k + 1].b.state != HalfOpen
  {
    TripsByFullCount(cfg, ws, es, k);
    TooManyIsCounted(cfg, es, k, k + 1);
    LateOutcomesChangeNothing(cfg, ws, es, k);
    assert IsStep(cfg, ws[k], es[k], ws[k + 1]);
  }

  /** No reachable breaker is closed while that many of the last window's calls failed. */
  lemma NeverClosedOnFailedCalls(cfg: Config, ws: seq<World>, es: seq<Event>, m: nat, k: nat)
    requires IsRun(cfg, ws, es) && LastOutcome(es, m, k)
    requires var all := Outcomes(es, k, es[m].now - cfg.windowMs);
             Exceeds(cfg, |FailedOf(es, all)|, |all|)
    ensures ws[k].b.state != Closed
  {
    TooManyIsCounted(cfg, es, m, k);
    NeverLeftClosed(cfg, ws, es, k);
  }

  /** Calls that all succeed never open a breaker that wants at least one failure. */
  lemma SuccessNeverOpens(cfg: Config, ws: seq<World>, es: seq<Event>, k: nat)
    requires IsRun(cfg, ws, es) && k < |es| && ws[k].b.state == Closed && cfg.minFailures > 0
    requires forall i | 0 <= i <= k && es[i].FinishCall? :: es[i].ok
    ensures ws[k + 1].b.state == Closed
  {
    assert IsStep(cfg, ws[k], es[k], ws[k + 1]);
    RunIsConsistent(cfg, ws, es, k);
    if es[k].FinishCall? {
      OpensByFailedCalls(cfg, ws, es, k);
      assert FailedOf(es, Outcomes(es, k + 1, es[k].now - cfg.windowMs)) == {};
    }
  }
}
