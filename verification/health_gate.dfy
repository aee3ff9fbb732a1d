/**
 The acting half of the probe's self-health check: the hysteresis state
 machine that, once per tick, compares the derived state with the last one
 and on a change flips the scheduler's Healthy flag, sets the health gauge
 and stops or resumes every check instance.
 */
module HealthGate {
  import opened HealthScore

  type CheckId = int

  /** A check instance as the health gate sees it: whether its loop is
      running, and how many Stop and Run calls it has received. */
  datatype Instance = Instance(running: bool, stops: nat, runs: nat)

  /** The scheduler fields the health check reads and writes. */
  datatype Scheduler = Scheduler(healthy: bool, checks: map<CheckId, Instance>, healthHosts: seq<string>)

  /** The scheduler together with the health check's own state: the last
      derived state and the value of the `scheduler.healthy` gauge. */
  datatype Gate = Gate(sched: Scheduler, lastState: HealthState, gauge: int)

  /** The two calls the gate broadcasts to every instance. */
  datatype Call = StopCall | RunCall

  /** One call delivered to one instance. */
  function Apply(call: Call, i: Instance): (r: Instance)
    ensures r.running == (call == RunCall)
    ensures r.stops + r.runs == i.stops + i.runs + 1
    ensures call == StopCall ==> r.stops == i.stops + 1 && r.runs == i.runs
    ensures call == RunCall ==> r.runs == i.runs + 1 && r.stops == i.stops
  {
    match call
    case StopCall => Instance(false, i.stops + 1, i.runs)
    case RunCall => Instance(true, i.stops, i.runs + 1)
  }

  /** Every instance of `checks` receives `call` once; no instance is added or dropped. */
  function Broadcast(checks: map<CheckId, Instance>, call: Call): (r: map<CheckId, Instance>)
    ensures r.Keys == checks.Keys
    ensures forall id :: id in checks ==> r[id] == Apply(call, checks[id])
  {
    map id | id in checks :: Apply(call, checks[id])
  }

  /** The broadcast loop over the scheduler's map. Ranging over a Go map
      visits every key exactly once in an unspecified order; `order` is that
      visiting order. Each visited instance is called in place. */
  method BroadcastLoop(checks: map<CheckId, Instance>, call: Call, order: seq<CheckId>)
    returns (r: map<CheckId, Instance>)
    requires forall id :: id in checks <==> id in order
    requires forall i, j :: 0 <= i < j < |order| ==> order[i] != order[j]
    ensures r == Broadcast(checks, call)
  {
    r := checks;
    var k := 0;
    while k < |order|
      invariant 0 <= k <= |order|
      invariant r.Keys == checks.Keys
      invariant forall id :: id in checks ==>
                  r[id] == if id in order[..k] then Apply(call, checks[id]) else checks[id]
    {
      var id := order[k];
      assert id !in order[..k];
      assert order[..k + 1] == order[..k] + [id];
      r := r[id := Apply(call, r[id])];
      k := k + 1;
    }
    assert order[..k] == order;
    assert forall id :: id in r ==> r[id] == Broadcast(checks, call)[id];
  }

  /** The state when the health loop starts: the scheduler as constructed,
      the last state unhealthy and the gauge at 0. */
  function Init(sched: Scheduler): (g: Gate)
    ensures g.sched == sched
    ensures g.lastState == Unhealthy && g.gauge == 0
  {
    Gate(sched, Unhealthy, 0)
  }

  /** One tick: `arrived` holds one outcome per health host, in the order the
      results channel delivered them. */
  function Tick(g: Gate, arrived: seq<Outcome>): (g': Gate)
    requires |arrived| == |g.sched.healthHosts|
    ensures g'.lastState == Derive(arrived, |arrived|)
    ensures g'.sched.healthHosts == g.sched.healthHosts
    ensures g'.sched.checks.Keys == g.sched.checks.Keys
    ensures g'.lastState == g.lastState ==> g' == g
    ensures g.lastState == Healthy && g'.lastState == Unhealthy ==>
              && !g'.sched.healthy && g'.gauge == 0
              && forall id :: id in g.sched.checks ==>
                   var i, i' := g.sched.checks[id], g'.sched.checks[id];
                   !i'.running && i'.stops == i.stops + 1 && i'.runs == i.runs
    ensures g.lastState == Unhealthy && g'.lastState == Healthy ==>
              && g'.sched.healthy && g'.gauge == 1
              && forall id :: id in g.sched.checks ==>
                   var i, i' := g.sched.checks[id], g'.sched.checks[id];
                   i'.running && i'.runs == i.runs + 1 && i'.stops == i.stops
  {
    var n := |g.sched.healthHosts|;
    var newState := Derive(arrived, n);
    if newState == g.lastState then g
    else if newState == Unhealthy then
      Gate(g.sched.(healthy := false, checks := Broadcast(g.sched.checks, StopCall)), Unhealthy, 0)
    else
      Gate(g.sched.(healthy := true, checks := Broadcast(g.sched.checks, RunCall)), Healthy, 1)
  }

  /** The gate's state agrees with itself: the Healthy flag and the gauge
      follow the last derived state, and nothing runs while unhealthy. */
  predicate Agrees(g: Gate) {
    && g.sched.healthy == (g.lastState == Healthy)
    && g.gauge == (if g.lastState == Healthy then 1 else 0)
    && (g.lastState == Unhealthy ==> forall id :: id in g.sched.checks ==> !g.sched.checks[id].running)
  }

  /** A scheduler constructed unhealthy with nothing running starts in
      agreement, and every tick keeps the agreement. */
  lemma TickKeepsAgreement(g: Gate, arrived: seq<Outcome>)
    requires Agrees(g)
    requires |arrived| == |g.sched.healthHosts|
    ensures Agrees(Tick(g, arrived))
  {
  }

  lemma InitAgrees(sched: Scheduler)
    requires !sched.healthy
    requires forall id :: id in sched.checks ==> !sched.checks[id].running
    ensures Agrees(Init(sched))
  {
  }

  /** The first tick: judged unhealthy it changes nothing (no broadcast);
      judged healthy it resumes every instance. */
  lemma FirstTick(sched: Scheduler, arrived: seq<Outcome>)
    requires |arrived| == |sched.healthHosts|
    ensures Derive(arrived, |arrived|) == Unhealthy ==> Tick(Init(sched), arrived) == Init(sched)
    ensures Derive(arrived, |arrived|) == Healthy ==>
              Tick(Init(sched), arrived).sched.checks == Broadcast(sched.checks, RunCall)
  {
  }

  /** A second tick that derives the same state as the first adds no Stop or
      Run call and changes nothing. */
  lemma StableTickIsIdle(g: Gate, first: seq<Outcome>, second: seq<Outcome>)
    requires |first| == |second| == |g.sched.healthHosts|
    requires Derive(first, |first|) == Derive(second, |second|)
    ensures Tick(Tick(g, first), second) == Tick(g, first)
  {
  }

  /** The order in which the host goroutines deliver their results does not
      affect the tick. */
  lemma TickOrderIndependent(g: Gate, a: seq<Outcome>, b: seq<Outcome>)
    requires |a| == |g.sched.healthHosts|
    requires multiset(a) == multiset(b)
    ensures |b| == |g.sched.healthHosts|
    ensures Tick(g, a) == Tick(g, b)
  {
    assert |a| == |multiset(a)| == |multiset(b)| == |b|;
    DeriveOrderIndependent(a, b);
  }
}
