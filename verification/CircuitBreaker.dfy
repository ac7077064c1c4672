/** The production circuit breaker: a sliding window of outcomes per tenant that
    opens once and stays open. */
module CircuitBreaker {
  import opened Budget

  datatype Policy = Policy(minimumSamples: int, windowSize: int, errorRate: real)
  datatype CircuitState = CircuitState(open: bool, samples: nat, failures: nat, errorRate: real)

  predicate ValidPolicy(p: Policy) {
    1 <= p.minimumSamples <= p.windowSize && 0.0 < p.errorRate <= 1.0
  }

  function Failures(window: seq<bool>): nat {
    if window == [] then 0
    else Failures(window[..|window| - 1]) + if window[|window| - 1] then 1 else 0
  }

  function Rate(window: seq<bool>): real {
    if |window| > 0 then Failures(window) as real / |window| as real else 0.0
  }

  /** The last `windowSize` outcomes of a history, or all of it. */
  function Window(p: Policy, history: seq<bool>): seq<bool>
    requires ValidPolicy(p)
  {
    if |history| > p.windowSize then history[|history| - p.windowSize..] else history
  }

  predicate Trips(p: Policy, window: seq<bool>) {
    |window| >= p.minimumSamples && Rate(window) >= p.errorRate
  }

  /** At some moment the window had enough samples and a high enough error rate. */
  ghost predicate Tripped(p: Policy, history: seq<bool>)
    requires ValidPolicy(p)
  {
    exists n :: 0 < n <= |history| && Trips(p, Window(p, history[..n]))
  }

  function Outcomes(m: map<string, seq<bool>>, tenant: string): seq<bool> {
    if tenant in m then m[tenant] else []
  }

  /** Appending to a window and cutting it to size is the window of the longer history. */
  lemma WindowSlides(p: Policy, history: seq<bool>, failed: bool)
    requires ValidPolicy(p)
    ensures Window(p, Window(p, history) + [failed]) == Window(p, history + [failed])
  {
  }

  /** The circuit opens at an outcome or was open before it. */
  lemma TrippedStep(p: Policy, history: seq<bool>, failed: bool)
    requires ValidPolicy(p)
    ensures Tripped(p, history + [failed]) <==>
            Tripped(p, history) || Trips(p, Window(p, history + [failed]))
  {
    var longer := history + [failed];
    if n :| 0 < n <= |history| && Trips(p, Window(p, history[..n])) {
      assert longer[..n] == history[..n];
    }
    if n :| 0 < n <= |longer| && Trips(p, Window(p, longer[..n])) {
      if n <= |history| {
        assert longer[..n] == history[..n];
      } else {
        assert longer[..n] == longer;
      }
    }
    assert longer[..|longer|] == longer;
  }

  /** No later outcome closes an open circuit. */
  lemma TrippedStaysOpen(p: Policy, history: seq<bool>, more: seq<bool>)
    requires ValidPolicy(p) && Tripped(p, history)
    ensures Tripped(p, history + more)
  {
    var n :| 0 < n <= |history| && Trips(p, Window(p, history[..n]));
    assert (history + more)[..n] == history[..n];
  }

  lemma {:induction false} FailuresWithin(window: seq<bool>)
    ensures Failures(window) <= |window|
  {
    if window != [] {
      FailuresWithin(window[..|window| - 1]);
    }
  }

  lemma RateIsAShare(window: seq<bool>)
    ensures 0.0 <= Rate(window) <= 1.0
  {
    FailuresWithin(window);
    if |window| > 0 {
      Share(Failures(window), |window|);
    }
  }

  lemma Share(part: nat, whole: nat)
    requires part <= whole && whole > 0
    ensures 0.0 <= part as real / whole as real <= 1.0
  {
  }

  method CountFailures(window: seq<bool>) returns (failures: nat)
    ensures failures == Failures(window)
  {
    failures := 0;
    for i := 0 to |window|
      invariant failures == Failures(window[..i])
    {
      assert window[..i + 1][..i] == window[..i];
      if window[i] {
        failures := failures + 1;
      }
    }
    assert window[..|window|] == window;
  }

  method StateOf(window: seq<bool>, open: bool) returns (s: CircuitState)
    ensures s == CircuitState(open, |window|, Failures(window), Rate(window))
    ensures 0.0 <= s.errorRate <= 1.0
  {
    var failures := CountFailures(window);
    RateIsAShare(window);
    var rate := 0.0;
    if |window| > 0 {
      rate := failures as real / |window| as real;
    }
    s := CircuitState(open, |window|, failures, rate);
  }

  /** What the breaker reports for a tenant with this history. */
  ghost function StateFor(p: Policy, history: seq<bool>): CircuitState
    requires ValidPolicy(p)
  {
    var w := Window(p, history);
    CircuitState(Tripped(p, history), |w|, Failures(w), Rate(w))
  }

  /** The answer to a recording: an empty state outside production, else the tenant's. */
  ghost function Report(p: Policy, history: map<string, seq<bool>>, tenant: string, environment: string): CircuitState
    requires ValidPolicy(p)
  {
    if environment != "production" then CircuitState(false, 0, 0, 0.0)
    else StateFor(p, Outcomes(history, TenantKey(tenant)))
  }

  ghost function Recorded(history: map<string, seq<bool>>, key: string, failed: bool): map<string, seq<bool>> {
    history[key := Outcomes(history, key) + [failed]]
  }

  predicate OpenAt(open: map<string, bool>, tenant: string) {
    tenant in open && open[tenant]
  }

  /** Windows and flags are what the histories say. */
  ghost predicate Reflects(p: Policy, windows: map<string, seq<bool>>, open: map<string, bool>,
                           history: map<string, seq<bool>>) {
    && ValidPolicy(p)
    && (forall t :: Outcomes(windows, t) == Window(p, Outcomes(history, t)))
    && (forall t :: OpenAt(open, t) <==> Tripped(p, Outcomes(history, t)))
  }

  lemma Put(m: map<string, seq<bool>>, key: string, outcomes: seq<bool>, t: string)
    ensures Outcomes(m[key := outcomes], t) == if t == key then outcomes else Outcomes(m, t)
  {
  }

  lemma OpenStep(tripped: seq<bool> -> bool, open: map<string, bool>, history: map<string, seq<bool>>, key: string,
                 failed: bool, trips: bool)
    requires forall t :: OpenAt(open, t) <==> tripped(Outcomes(history, t))
    requires tripped(Outcomes(history, key) + [failed]) <==> tripped(Outcomes(history, key)) || trips
    ensures forall t :: OpenAt(if trips then open[key := true] else open, t) <==>
                        tripped(Outcomes(Recorded(history, key, failed), t))
  {
    forall t
      ensures OpenAt(if trips then open[key := true] else open, t) <==>
              tripped(Outcomes(Recorded(history, key, failed), t))
    {
      Put(history, key, Outcomes(history, key) + [failed], t);
    }
  }

  lemma ReflectsStep(p: Policy, windows: map<string, seq<bool>>, open: map<string, bool>,
                     history: map<string, seq<bool>>, key: string, failed: bool)
    requires Reflects(p, windows, open, history)
    ensures var window := Window(p, Outcomes(windows, key) + [failed]);
            Reflects(p, windows[key := window], if Trips(p, window) then open[key := true] else open,
                     Recorded(history, key, failed))
  {
    var before := Outcomes(history, key);
    WindowSlides(p, before, failed);
    TrippedStep(p, before, failed);
    var window := Window(p, Outcomes(windows, key) + [failed]);
    var windows', history' := windows[key := window], Recorded(history, key, failed);
    var open' := if Trips(p, window) then open[key := true] else open;
    assert window == Window(p, before + [failed]);
    forall t ensures Outcomes(windows', t) == Window(p, Outcomes(history', t)) {
      Put(windows, key, window, t);
      Put(history, key, before + [failed], t);
    }
    var tripped := (h: seq<bool>) => Tripped(p, h);
    assert tripped(before + [failed]) <==> tripped(before) || Trips(p, window);
    forall t ensures OpenAt(open, t) <==> tripped(Outcomes(history, t)) { }
    OpenStep(tripped, open, history, key, failed, Trips(p, window));
    forall t ensures OpenAt(open', t) <==> Tripped(p, Outcomes(history', t)) {
      assert tripped(Outcomes(history', t)) == Tripped(p, Outcomes(history', t));
    }
  }

  /** The state after an outcome, from the windows and flags before it. */
  lemma RecordedState(p: Policy, windows: map<string, seq<bool>>, open: map<string, bool>,
                      history: map<string, seq<bool>>, key: string, failed: bool)
    requires Reflects(p, windows, open, history)
    ensures var window := Window(p, Outcomes(windows, key) + [failed]);
            StateFor(p, Outcomes(Recorded(history, key, failed), key)) ==
            CircuitState(OpenAt(open, key) || Trips(p, window), |window|, Failures(window), Rate(window))
  {
    var before := Outcomes(history, key);
    WindowSlides(p, before, failed);
    TrippedStep(p, before, failed);
    assert Outcomes(Recorded(history, key, failed), key) == before + [failed];
  }

  class CircuitBreaker {
    const policy: Policy
    var windows: map<string, seq<bool>>
    var open: map<string, bool>
    /** Every production outcome ever recorded, by tenant. */
    ghost var history: map<string, seq<bool>>

    ghost predicate Valid()
      reads this
    {
      Reflects(policy, windows, open, history)
    }

    constructor (policy: Policy)
      requires ValidPolicy(policy)
      ensures Valid() && history == map[] && this.policy == policy
    {
      this.policy := policy;
      windows, open, history := map[], map[], map[];
    }

    method Allow(tenant: string, environment: string) returns (allowed: bool)
      requires Valid()
      ensures allowed <==> environment != "production" || !Tripped(policy, Outcomes(history, TenantKey(tenant)))
    {
      allowed := environment != "production" || !OpenAt(open, TenantKey(tenant));
    }

    method Append(key: string, failed: bool) returns (window: seq<bool>)
      requires Valid()
      ensures window == Window(policy, Outcomes(windows, key) + [failed])
    {
      window := Outcomes(windows, key) + [failed];
      if |window| > policy.windowSize {
        window := window[|window| - policy.windowSize..];
      }
    }

    /** Only production outcomes count; each is appended to its tenant's history. */
    method Record(tenant: string, environment: string, failed: bool) returns (s: CircuitState)
      requires Valid()
      modifies this
      ensures Valid()
      ensures history == if environment != "production" then old(history)
                         else Recorded(old(history), TenantKey(tenant), failed)
      ensures s == Report(policy, history, tenant, environment)
    {
      if environment != "production" {
        return CircuitState(false, 0, 0, 0.0);
      }
      var key := TenantKey(tenant);
      ReflectsStep(policy, windows, open, history, key, failed);
      RecordedState(policy, windows, open, history, key, failed);
      var window := Append(key, failed);
      windows := windows[key := window];
      history := Recorded(history, key, failed);
      s := StateOf(window, OpenAt(open, key));
      if |window| >= policy.minimumSamples && s.errorRate >= policy.errorRate {
        open := open[key := true];
        s := s.(open := true);
      }
    }

    method State(tenant: string) returns (s: CircuitState)
      requires Valid()
      ensures s == StateFor(policy, Outcomes(history, TenantKey(tenant)))
    {
      s := StateOf(Outcomes(windows, TenantKey(tenant)), OpenAt(open, TenantKey(tenant)));
    }
  }
}
