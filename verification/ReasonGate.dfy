/**
 The gates of the reasoning scheduler (cognitive/reason-scheduler.ts): a soft gate on recent verdicts, a hard pause
 after four soft skips, automatic resume after a week, and manual control, over whole runs.
 */
module ReasonGate {
  import opened Base

  const ENTRY_CHAIN_COUNT := 10
  const SOFT_GATE_WINDOW := 10
  const SOFT_GATE_MIN_JUDGED := 5
  const HARD_GATE_CONSECUTIVE_SKIPS := 4
  const HARD_GATE_AUTO_RESUME_HOURS := 168
  const MS_PER_HOUR := 3_600_000

  datatype Verdict = Confirmed | Refined | Rejected | OtherVerdict

  datatype GateDecision = Ran | SkippedSoft | SkippedHardPaused | SkippedBelowEntry | SkippedNoSeeds

  /** The one persisted row; `pausedAt` is in whole seconds. */
  datatype SchedulerState = SchedulerState(paused: bool, pausedAt: Option<int>, consecutive: nat,
                                           lastCycleAt: Option<int>, lastDecision: Option<GateDecision>)

  const INITIAL_STATE := SchedulerState(false, None, 0, None, None)

  /** The time as it is stored: cut to the second. */
  function StoredSecond(nowMs: int): int {
    nowMs / 1000
  }

  // ---------- the verdict window ----------

  function CountOf(v: Verdict, rows: seq<Verdict>): (n: nat)
    ensures n <= |rows|
  {
    if rows == [] then 0 else CountOf(v, rows[..|rows| - 1]) + if rows[|rows| - 1] == v then 1 else 0
  }

  /** The newest judged verdicts; `verdicts` lists all of them, newest first. */
  function Window(verdicts: seq<Verdict>): seq<Verdict> {
    if |verdicts| <= SOFT_GATE_WINDOW then verdicts else verdicts[..SOFT_GATE_WINDOW]
  }

  function Judged(rows: seq<Verdict>): nat {
    CountOf(Confirmed, rows) + CountOf(Refined, rows) + CountOf(Rejected, rows)
  }

  /** Enough judgments, and at least half of them rejections. */
  predicate QualityIsLow(verdicts: seq<Verdict>) {
    var rows := Window(verdicts);
    Judged(rows) >= SOFT_GATE_MIN_JUDGED && 2 * CountOf(Rejected, rows) >= Judged(rows)
  }

  method GetRecentVerdictStats(verdicts: seq<Verdict>) returns (judged: nat, rejected: nat)
    ensures judged == Judged(Window(verdicts)) && rejected == CountOf(Rejected, Window(verdicts))
  {
    var rows := Window(verdicts);
    var confirmed, refined := 0, 0;
    rejected := 0;
    for i := 0 to |rows|
      invariant confirmed == CountOf(Confirmed, rows[..i]) && refined == CountOf(Refined, rows[..i])
      invariant rejected == CountOf(Rejected, rows[..i])
    {
      assert rows[..i + 1][..i] == rows[..i];
      match rows[i] {
        case Confirmed => confirmed := confirmed + 1;
        case Refined => refined := refined + 1;
        case Rejected => rejected := rejected + 1;
        case OtherVerdict =>
      }
    }
    assert rows[..|rows|] == rows;
    judged := confirmed + refined + rejected;
  }

  // ---------- the steps ----------

  predicate ResumeIsDue(s: SchedulerState, nowMs: int) {
    s.pausedAt.Some? && nowMs - 1000 * s.pausedAt.value >= HARD_GATE_AUTO_RESUME_HOURS * MS_PER_HOUR
  }

  function Resumed(s: SchedulerState): SchedulerState {
    s.(paused := false, pausedAt := None, consecutive := 0)
  }

  function Paused(s: SchedulerState, nowMs: int): SchedulerState {
    s.(paused := true, pausedAt := Some(StoredSecond(nowMs)))
  }

  function SoftGate(s: SchedulerState, nowMs: int, low: bool): (SchedulerState, GateDecision) {
    if !low then (s, Ran)
    else if s.consecutive + 1 >= HARD_GATE_CONSECUTIVE_SKIPS
    then (Paused(s, nowMs).(consecutive := s.consecutive + 1), SkippedHardPaused)
    else (s.(consecutive := s.consecutive + 1), SkippedSoft)
  }

  function Gate(s: SchedulerState, nowMs: int, chains: nat, low: bool): (SchedulerState, GateDecision) {
    if chains < ENTRY_CHAIN_COUNT then (s, SkippedBelowEntry)
    else if s.paused && !ResumeIsDue(s, nowMs) then (s, SkippedHardPaused)
    else SoftGate(if s.paused then Resumed(s) else s, nowMs, low)
  }

  function CycleNoted(s: SchedulerState, triggeredAt: int, decision: GateDecision): SchedulerState {
    s.(lastCycleAt := Some(triggeredAt), lastDecision := Some(decision), consecutive := if decision == Ran then 0 else s.consecutive)
  }

  class Scheduler {
    var paused: bool
    var pausedAt: Option<int>
    var consecutive: nat
    var lastCycleAt: Option<int>
    var lastDecision: Option<GateDecision>

    function State(): SchedulerState
      reads this
    {
      SchedulerState(paused, pausedAt, consecutive, lastCycleAt, lastDecision)
    }

    constructor ()
      ensures State() == INITIAL_STATE
    {
      paused, pausedAt, consecutive, lastCycleAt, lastDecision := false, None, 0, None, None;
    }

    method CanTriggerCycle(nowMs: int, chains: nat, verdicts: seq<Verdict>) returns (decision: GateDecision)
      modifies this
      ensures (State(), decision) == Gate(old(State()), nowMs, chains, QualityIsLow(verdicts))
    {
      if chains < ENTRY_CHAIN_COUNT {
        return SkippedBelowEntry;
      }
      if paused {
        if pausedAt.Some? && nowMs - 1000 * pausedAt.value >= HARD_GATE_AUTO_RESUME_HOURS * MS_PER_HOUR {
          paused, pausedAt, consecutive := false, None, 0;
        } else {
          return SkippedHardPaused;
        }
      }
      var judged, rejected := GetRecentVerdictStats(verdicts);
      if judged >= SOFT_GATE_MIN_JUDGED && 2 * rejected >= judged {
        var newConsecutive := consecutive + 1;
        if newConsecutive >= HARD_GATE_CONSECUTIVE_SKIPS {
          paused, pausedAt, consecutive := true, Some(StoredSecond(nowMs)), newConsecutive;
          return SkippedHardPaused;
        }
        consecutive := newConsecutive;
        return SkippedSoft;
      }
      decision := Ran;
    }

    /** What a cycle writes when it is over: skipped at the gate, without seeds, or run. */
    method NoteCycle(triggeredAt: int, decision: GateDecision)
      modifies this
      ensures State() == CycleNoted(old(State()), triggeredAt, decision)
      ensures lastCycleAt == Some(triggeredAt) && lastDecision == Some(decision)
      ensures consecutive == (if decision == Ran then 0 else old(consecutive)) && paused == old(paused) && pausedAt == old(pausedAt)
    {
      lastCycleAt, lastDecision := Some(triggeredAt), Some(decision);
      if decision == Ran {
        consecutive := 0;
      }
    }

    method PauseScheduler(nowMs: int)
      modifies this
      ensures State() == Paused(old(State()), nowMs)
      ensures paused && pausedAt.Some? && 1000 * pausedAt.value <= nowMs < 1000 * pausedAt.value + 1000
      ensures consecutive == old(consecutive) && lastCycleAt == old(lastCycleAt) && lastDecision == old(lastDecision)
    {
      paused, pausedAt := true, Some(StoredSecond(nowMs));
    }

    method ResumeScheduler()
      modifies this
      ensures State() == Resumed(old(State()))
      ensures !paused && pausedAt == None && consecutive == 0 && lastCycleAt == old(lastCycleAt) && lastDecision == old(lastDecision)
    {
      paused, pausedAt, consecutive := false, None, 0;
    }
  }

  // ---------- whole runs ----------

  /** Between a cycle's gate and its end other commands may run, such as a manual pause. */
  datatype Event =
    | GateStep(nowMs: int, chains: nat, verdicts: seq<Verdict>)
    | CycleEnds(triggeredAt: int, decision: GateDecision)
    | PauseStep(nowMs: int)
    | ResumeStep

  function Next(s: SchedulerState, e: Event): SchedulerState {
    match e
    case GateStep(nowMs, chains, verdicts) => Gate(s, nowMs, chains, QualityIsLow(verdicts)).0
    case CycleEnds(triggeredAt, decision) => CycleNoted(s, triggeredAt, decision)
    case PauseStep(nowMs) => Paused(s, nowMs)
    case ResumeStep => Resumed(s)
  }

  predicate IsRun(ss: seq<SchedulerState>, es: seq<Event>) {
    |ss| == |es| + 1 && ss[0] == INITIAL_STATE && forall i | 0 <= i < |es| :: ss[i + 1] == Next(ss[i], es[i])
  }

  /** The gate got as far as the soft gate and found the quality low. */
  predicate SkipsSoftly(s: SchedulerState, e: Event) {
    && e.GateStep? && e.chains >= ENTRY_CHAIN_COUNT && QualityIsLow(e.verdicts)
    && (s.paused ==> ResumeIsDue(s, e.nowMs))
  }

  predicate AutoResumes(s: SchedulerState, e: Event) {
    e.GateStep? && e.chains >= ENTRY_CHAIN_COUNT && s.paused && ResumeIsDue(s, e.nowMs)
  }

  /** Soft skips among the first `k` events since the last full cycle, resume or automatic resume. */
  function SkipsSinceReset(ss: seq<SchedulerState>, es: seq<Event>, k: nat): nat
    requires k <= |es| < |ss|
  {
    if k == 0 then 0
    else
      var s, e := ss[k - 1], es[k - 1];
      if e.ResumeStep? || (e.CycleEnds? && e.decision == Ran) then 0
      else (if AutoResumes(s, e) then 0 else SkipsSinceReset(ss, es, k - 1)) + if SkipsSoftly(s, e) then 1 else 0
  }

  /** The counter is the number of soft skips since the last reset, at most four, and below four unless paused. */
  lemma {:induction false} CounterCountsSkips(ss: seq<SchedulerState>, es: seq<Event>, k: nat)
    requires IsRun(ss, es) && k <= |es|
    ensures ss[k].consecutive == SkipsSinceReset(ss, es, k) <= 4
    ensures !ss[k].paused ==> ss[k].consecutive < 4
  {
    if k > 0 {
      CounterCountsSkips(ss, es, k - 1);
      assert ss[k - 1 + 1] == Next(ss[k - 1], es[k - 1]);
    }
  }

  /** A soft skip pauses exactly when it is the fourth since the last reset. */
  lemma FourthSkipPauses(ss: seq<SchedulerState>, es: seq<Event>, k: nat)
    requires IsRun(ss, es) && k < |es| && SkipsSoftly(ss[k], es[k])
    ensures ss[k + 1].paused <==> SkipsSinceReset(ss, es, k + 1) == 4
    ensures ss[k + 1].paused ==> ss[k + 1].pausedAt == Some(StoredSecond(es[k].nowMs))
  {
    CounterCountsSkips(ss, es, k);
    CounterCountsSkips(ss, es, k + 1);
    assert ss[k + 1] == Next(ss[k], es[k]);
  }

  /**
   The pause of state `i` is not resumed or renewed by hand before `j`, and every gate until then that gets past the
   entry count is younger than a week.
   */
  predicate PauseStands(ss: seq<SchedulerState>, es: seq<Event>, i: nat, j: nat)
    requires |ss| == |es| + 1
  {
    && i <= j <= |es| && ss[i].paused && ss[i].pausedAt.Some?
    && forall k | i <= k < j ::
         && !es[k].ResumeStep? && !es[k].PauseStep?
         && (es[k].GateStep? && es[k].chains >= ENTRY_CHAIN_COUNT ==> !ResumeIsDue(ss[i], es[k].nowMs))
  }

  lemma {:induction false} PauseLasts(ss: seq<SchedulerState>, es: seq<Event>, i: nat, j: nat)
    requires IsRun(ss, es) && PauseStands(ss, es, i, j)
    ensures ss[j].paused && ss[j].pausedAt == ss[i].pausedAt
    decreases j
  {
    if i < j {
      PauseLasts(ss, es, i, j - 1);
      assert ss[j - 1 + 1] == Next(ss[j - 1], es[j - 1]);
    }
  }

  /** A pause blocks every gate younger than 168 hours and none at or beyond that age. */
  lemma PauseBlocksForAWeek(ss: seq<SchedulerState>, es: seq<Event>, i: nat, j: nat)
    requires IsRun(ss, es) && j < |es| && PauseStands(ss, es, i, j)
    requires es[j].GateStep? && es[j].chains >= ENTRY_CHAIN_COUNT
    ensures Gate(ss[j], es[j].nowMs, es[j].chains, QualityIsLow(es[j].verdicts)).1 == SkippedHardPaused <==>
            es[j].nowMs - 1000 * ss[i].pausedAt.value < WEEK_MS
    ensures ss[j + 1].paused <==> es[j].nowMs - 1000 * ss[i].pausedAt.value < WEEK_MS
  {
    PauseLasts(ss, es, i, j);
    assert ss[j + 1] == Next(ss[j], es[j]);
  }

  // ---------- the gate in the program's own numbers ----------

  ghost function Positions(verdicts: seq<Verdict>, wanted: set<Verdict>): set<nat> {
    set i: nat | i < |verdicts| && i < 10 && verdicts[i] in wanted
  }

  lemma {:induction false} CountIsPositions(v: Verdict, rows: seq<Verdict>)
    requires |rows| <= 10
    ensures CountOf(v, rows) == |Positions(rows, {v})|
  {
    if rows != [] {
      var n := |rows| - 1;
      CountIsPositions(v, rows[..n]);
      var before := Positions(rows[..n], {v});
      assert n !in before;
      assert Positions(rows, {v}) == if rows[n] == v then before + {n} else before;
    }
  }

  /** Of the ten newest verdicts at least five are judgments, and at least half of those are rejections. */
  lemma LowQualityMeans(verdicts: seq<Verdict>)
    ensures QualityIsLow(verdicts) <==>
            var judged := |Positions(verdicts, {Confirmed, Refined, Rejected})|;
            judged >= 5 && 2 * |Positions(verdicts, {Rejected})| >= judged
  {
    var rows := Window(verdicts);
    CountIsPositions(Confirmed, rows);
    CountIsPositions(Refined, rows);
    CountIsPositions(Rejected, rows);
    var c, f, r := Positions(verdicts, {Confirmed}), Positions(verdicts, {Refined}), Positions(verdicts, {Rejected});
    assert Positions(rows, {Confirmed}) == c && Positions(rows, {Refined}) == f && Positions(rows, {Rejected}) == r;
    JudgedIsSum(verdicts);
  }

  lemma JudgedIsSum(verdicts: seq<Verdict>)
    ensures |Positions(verdicts, {Confirmed, Refined, Rejected})|
         == |Positions(verdicts, {Confirmed})| + |Positions(verdicts, {Refined})| + |Positions(verdicts, {Rejected})|
  {
    var c, f, r := Positions(verdicts, {Confirmed}), Positions(verdicts, {Refined}), Positions(verdicts, {Rejected});
    assert Positions(verdicts, {Confirmed, Refined, Rejected}) == c + f + r;
    assert c !! f && (c + f) !! r;
  }

  const WEEK_MS := 7 * 24 * 60 * 60 * 1000

  /**
   In any run: below ten chains the gate changes nothing. Otherwise a pause younger than a week blocks it, a pause
   without a time blocks it for good, and past the pause it runs exactly when the quality is not low.
   */
  lemma GateDecides(ss: seq<SchedulerState>, es: seq<Event>, k: nat, chains: nat, nowMs: int, verdicts: seq<Verdict>)
    requires IsRun(ss, es) && k < |es| && es[k] == GateStep(nowMs, chains, verdicts)
    ensures var s, decision := ss[k], Gate(ss[k], nowMs, chains, QualityIsLow(verdicts)).1;
            var blocked := s.paused && (s.pausedAt.Some? ==> nowMs - 1000 * s.pausedAt.value < WEEK_MS);
            var judged, rejected := |Positions(verdicts, {Confirmed, Refined, Rejected})|, |Positions(verdicts, {Rejected})|;
            var skips := if s.paused then 0 else s.consecutive;
            && (decision == SkippedBelowEntry <==> chains < 10)
            && (decision == Ran <==> chains >= 10 && !blocked && (judged < 5 || 2 * rejected < judged))
            && (decision == SkippedSoft <==> chains >= 10 && !blocked && judged >= 5 && 2 * rejected >= judged && skips < 3)
            && (decision == SkippedHardPaused <==>
                  chains >= 10 && (blocked || (judged >= 5 && 2 * rejected >= judged && skips >= 3)))
            && (decision in {SkippedBelowEntry} || blocked ==> ss[k + 1] == s)
            && (decision == SkippedHardPaused && !blocked ==>
                  && ss[k + 1].paused && ss[k + 1].pausedAt.Some?
                  && 1000 * ss[k + 1].pausedAt.value <= nowMs < 1000 * ss[k + 1].pausedAt.value + 1000)
  {
    LowQualityMeans(verdicts);
    assert ss[k + 1] == Next(ss[k], es[k]);
  }
}
