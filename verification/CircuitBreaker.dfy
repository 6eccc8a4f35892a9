/**
 The rolling-window circuit breaker around a language-model service (llm/circuit-breaker.ts). Calls overlap:
 starting a call, its outcome and the clearing of the probe are separate steps at growing times.
 */
module CircuitBreaker {
  import opened Base

  datatype State = Closed | Open | HalfOpen

  datatype Outcome = Outcome(t: int, ok: bool)

  datatype Config = Config(windowMs: int, openMs: int, minFailures: int, failureRate: real)

  const DEFAULT_CONFIG := Config(60_000, 30_000, 3, 0.5)

  datatype Breaker = Breaker(state: State, history: seq<Outcome>, openedAt: Option<int>, probeInFlight: bool)

  const FRESH_BREAKER := Breaker(Closed, [], None, false)

  datatype Decision = Reject | CallInner | Probe

  // ---------- what the steps do ----------

  function Failures(outcomes: seq<Outcome>): (n: nat)
    ensures n <= |outcomes|
  {
    if outcomes == [] then 0
    else Failures(outcomes[..|outcomes| - 1]) + if outcomes[|outcomes| - 1].ok then 0 else 1
  }

  ghost function FailedIn(outcomes: seq<Outcome>): set<nat> {
    set i | 0 <= i < |outcomes| && !outcomes[i].ok
  }

  lemma {:induction false} FailuresAreCounted(outcomes: seq<Outcome>)
    ensures Failures(outcomes) == |FailedIn(outcomes)|
  {
    if outcomes != [] {
      var n := |outcomes| - 1;
      FailuresAreCounted(outcomes[..n]);
      var before := FailedIn(outcomes[..n]);
      assert FailedIn(outcomes) == if outcomes[n].ok then before else before + {n};
    }
  }

  /** At least `minFailures` failures, and more than the given share of all outcomes failed. */
  predicate TooManyFailures(cfg: Config, outcomes: seq<Outcome>) {
    && Failures(outcomes) >= cfg.minFailures
    && Failures(outcomes) as real > cfg.failureRate * |outcomes| as real
  }

  /** Of `all` outcomes, `failed` failed: at least `minFailures`, and more than the given share. */
  predicate Exceeds(cfg: Config, failed: nat, all: nat) {
    failed >= cfg.minFailures && failed as real > cfg.failureRate * all as real
  }

  lemma TooManyExceeds(cfg: Config, outcomes: seq<Outcome>)
    ensures TooManyFailures(cfg, outcomes) <==> Exceeds(cfg, Failures(outcomes), |outcomes|)
  {
  }

  lemma TripsOnFailed(cfg: Config, outcomes: seq<Outcome>)
    ensures TooManyFailures(cfg, outcomes) <==> Exceeds(cfg, |FailedIn(outcomes)|, |outcomes|)
  {
    FailuresAreCounted(outcomes);
    TooManyExceeds(cfg, outcomes);
  }

  function DropOld(history: seq<Outcome>, cutoff: int): seq<Outcome> {
    if history != [] && history[0].t < cutoff then DropOld(history[1..], cutoff) else history
  }

  function Transitioned(cfg: Config, b: Breaker, now: int): Breaker {
    if b.state == Open && b.openedAt.Some? && now - b.openedAt.value >= cfg.openMs then b.(state := HalfOpen) else b
  }

  function Started(cfg: Config, b: Breaker, now: int): (Breaker, Decision) {
    var b' := Transitioned(cfg, b, now);
    match b'.state
    case Closed => (b', CallInner)
    case Open => (b', Reject)
    case HalfOpen => if b'.probeInFlight then (b', Reject) else (b'.(probeInFlight := true), Probe)
  }

  function Recorded(cfg: Config, b: Breaker, outcome: Outcome): Breaker {
    var history := DropOld(b.history + [outcome], outcome.t - cfg.windowMs);
    if b.state == Closed && TooManyFailures(cfg, history)
    then b.(history := history, state := Open, openedAt := Some(outcome.t))
    else b.(history := history)
  }

  function ProbeSettled(b: Breaker, now: int, ok: bool): Breaker {
    if ok then b.(state := Closed, openedAt := None, history := []) else b.(state := Open, openedAt := Some(now))
  }

  // ---------- the class ----------

  class CircuitBreakerLLM {
    const cfg: Config
    var state: State
    var history: seq<Outcome>
    var openedAt: Option<int>
    var probeInFlight: bool

    function Value(): Breaker
      reads this
    {
      Breaker(state, history, openedAt, probeInFlight)
    }

    constructor (cfg: Config)
      ensures this.cfg == cfg && Value() == FRESH_BREAKER
    {
      this.cfg := cfg;
      state, history, openedAt, probeInFlight := Closed, [], None, false;
    }

    method MaybeTransition(now: int)
      modifies this`state
      ensures Value() == Transitioned(cfg, old(Value()), now)
    {
      if state == Open && openedAt.Some? {
        if now - openedAt.value >= cfg.openMs {
          state := HalfOpen;
        }
      }
    }

    method GetState(now: int) returns (s: State)
      modifies this`state
      ensures Value() == Transitioned(cfg, old(Value()), now) && s == Value().state
    {
      MaybeTransition(now);
      s := state;
    }

    /** The part of a call before the inner service answers. */
    method Start(now: int) returns (decision: Decision)
      modifies this
      ensures (Value(), decision) == Started(cfg, old(Value()), now)
    {
      MaybeTransition(now);
      if state == Open {
        return Reject;
      }
      if state == HalfOpen {
        if probeInFlight {
          return Reject;
        }
        probeInFlight := true;
        return Probe;
      }
      decision := CallInner;
    }

    /** A call begun while closed ends. */
    method FinishCall(now: int, ok: bool)
      modifies this
      ensures Value() == Recorded(cfg, old(Value()), Outcome(now, ok))
    {
      Record(Outcome(now, ok));
    }

    method SettleProbe(now: int, ok: bool)
      modifies this
      ensures Value() == ProbeSettled(old(Value()), now, ok)
    {
      if ok {
        state, openedAt, history := Closed, None, [];
      } else {
        state, openedAt := Open, Some(now);
      }
    }

    /** The caller that started the probe resumes after it settled. */
    method ClearProbe()
      modifies this
      ensures Value() == old(Value()).(probeInFlight := false)
    {
      probeInFlight := false;
    }

    method Record(outcome: Outcome)
      modifies this
      ensures Value() == Recorded(cfg, old(Value()), outcome)
    {
      history := history + [outcome];
      Prune(outcome.t);
      var trip := ShouldTrip();
      TripsOnFailed(cfg, history);
      if trip {
        state, openedAt := Open, Some(outcome.t);
      }
    }

    method Prune(now: int)
      modifies this`history
      ensures history == DropOld(old(history), now - cfg.windowMs)
    {
      var cutoff := now - cfg.windowMs;
      while |history| > 0 && history[0].t < cutoff
        invariant DropOld(history, cutoff) == DropOld(old(history), cutoff)
        decreases |history|
      {
        history := history[1..];
      }
    }

    method CountFailures() returns (n: nat)
      ensures n == |FailedIn(history)|
    {
      n := 0;
      for i := 0 to |history|
        invariant n == Failures(history[..i])
      {
        assert history[..i + 1][..i] == history[..i];
        if !history[i].ok {
          n := n + 1;
        }
      }
      assert history[..|history|] == history;
      FailuresAreCounted(history);
    }

    method ShouldTrip() returns (trip: bool)
      ensures trip <==> state == Closed && Exceeds(cfg, |FailedIn(history)|, |history|)
    {
      if state != Closed {
        return false;
      }
      var failures := CountFailures();
      if failures < cfg.minFailures {
        return false;
      }
      var total := |history|;
      trip := failures as real > cfg.failureRate * total as real;
    }
  }
}
