# Probe self-health gate

This project models the network self-health check of the raintank probe's
check scheduler, `Scheduler.CheckHealth`. Every five seconds the probe pings
a fixed set of health hosts. It scores the outcomes and classifies itself
as healthy or unhealthy. When that judgement changes, it flips the
scheduler's `Healthy` flag, sets the `scheduler.healthy` gauge, and stops or
resumes every check instance the scheduler owns.

The model has two modules:

- `HealthScore` (`health_score.dfy`) covers one tick's judgement. It has the
  `Outcome` of one ping, the channel `Code` for that outcome, and the `Score`
  fold over the codes in arrival order. `Classify` applies the
  integer-division threshold. A front-to-back count, `SoftFailures`, serves
  as an independent reference for the fold.
- `HealthGate` (`health_gate.dfy`) covers the hysteresis state machine. It
  works on an immutable `Gate` record holding the scheduler's `Healthy`
  flag, its map from check id to `Instance`, the health hosts, the last
  derived state and the gauge value. `Tick` performs one step, and `Init`
  gives the state the loop starts in.

Some modelling decisions:

- One tick receives one outcome per health host. The results channel hands
  them over in an order nobody controls, so `Tick` takes them as a sequence
  in arrival order. The lemmas then show that the arrival order cannot
  change the derived state, so it cannot change the tick either.
- The source's states 0 and 1 are `Healthy` and `Unhealthy`.
- A check instance is a running flag plus counters of the Stop and Run
  calls it has received. These counters make "exactly one Stop per
  transition" something a contract can state.
- The threshold `score > N/2` uses integer division. For an integer score
  this is the same as `2 * score > N`, a strict majority of the hosts.
  `Classify` states the threshold in that form. So at an even host count,
  exactly half the hosts failing stays healthy.
- A hard error does not add N to the score. It overwrites the score
  accumulated so far with N, and later codes are added on top. The model
  follows this code behaviour. One might expect a hard error to add N to
  the score; the code at `scheduler/health.go:66` overwrites the score with
  N instead. The two readings agree on the classification: either way the
  result is at least N, so it is unhealthy whenever N ≥ 1. They disagree on
  the score itself, which `ScoreAfterLastHardError` pins down exactly.

## Model

| member | source | states |
|---|---|---|
| HealthScore.Code | scheduler/health.go:43-58 | each host sends exactly one code: 3 iff the ping returned an error, 1 iff it completed with a non-empty error message, 0 iff it completed cleanly |
| HealthScore.Score | scheduler/health.go:62-70 | for every arrival order, a hard error anywhere makes the score at least the host count; with no hard error the score is at most the number of outcomes |
| HealthScore.ScoreWithoutHardErrors | scheduler/health.go:62-70 | with no hard error the fold equals the number of soft failures, whatever the order |
| HealthScore.ScoreAfterLastHardError | scheduler/health.go:63-69 | with hard errors the score is the host count plus the soft failures that arrived after the last hard error; earlier codes are discarded |
| HealthScore.Classify | scheduler/health.go:71-75 | unhealthy iff twice the score exceeds the host count (a strict majority); with no hosts and no score the state is healthy |
| HealthScore.Derive | scheduler/health.go:62-75 | the tick's new state: unhealthy whenever some ping hit a hard error and there is at least one host; healthy whenever there is no hard error and the outcomes are too few to form a strict majority of the hosts |
| HealthScore.DeriveCharacterised | scheduler/health.go:43-75 | a tick is judged unhealthy iff some ping hit a hard error or strictly more than half the hosts soft-failed |
| HealthScore.DeriveOrderIndependent | scheduler/health.go:39-75 | two ticks that receive the same outcomes in different orders derive the same state |
| HealthScore.HardErrorForcesUnhealthy | scheduler/health.go:62-75 | with at least one host, a single hard error makes the tick unhealthy regardless of the other outcomes |
| HealthScore.MajorityBoundary | scheduler/health.go:71-75 | with four hosts and no hard error, two soft failures stay healthy and three are unhealthy; with no hosts the tick is healthy |
| HealthGate.Apply | scheduler/health.go:84-97 | a Stop leaves the instance stopped and adds one Stop call; a Run leaves it running and adds one Run call; no other call is counted |
| HealthGate.Broadcast | scheduler/health.go:84-97 | every instance receives the call exactly once and the set of check ids is unchanged |
| HealthGate.BroadcastLoop | scheduler/health.go:84-86 | the map-range loop visiting each key once, in any order, reaches exactly the map `Broadcast` describes: every instance called exactly once, no id added or dropped |
| HealthGate.Init | scheduler/health.go:33-34 | the loop starts with the last state unhealthy and the gauge at 0, and the scheduler untouched |
| HealthGate.Tick | scheduler/health.go:77-101 | after a tick the last state is the derived state. If it equals the previous last state, nothing changes. Going unhealthy clears Healthy, sets the gauge to 0 and gives every instance one Stop; going healthy sets Healthy, sets the gauge to 1 and gives every instance one Run. Check ids and hosts are never changed |
| HealthGate.TickKeepsAgreement | scheduler/health.go:77-101 | if the Healthy flag and the gauge follow the last state and nothing runs while unhealthy, a tick keeps all three true |
| HealthGate.InitAgrees | scheduler/health.go:33-34 | a scheduler built unhealthy with no running instance starts in that agreement |
| HealthGate.FirstTick | scheduler/health.go:33-101 | a first tick judged unhealthy broadcasts nothing and changes nothing; a first tick judged healthy resumes every instance |
| HealthGate.StableTickIsIdle | scheduler/health.go:77-101 | a tick deriving the same state as the previous one issues no further Stop or Run and changes nothing |
| HealthGate.TickOrderIndependent | scheduler/health.go:39-101 | the whole tick, broadcast included, does not depend on the order in which the host results arrive |

## Left out

- `main.go` is not part of this model. It covers flag parsing, the controller socket connection and reconnect loop, signal handling and the readiness/liveness HTTP server, which is all process plumbing.
- The Scheduler's mutation methods (Refresh, Create, Update, Remove, Close) and its constructor live in a scheduler file that is not part of this model. `Init` takes the scheduler as it was constructed, including whatever `Healthy` value the constructor gave it.
- Health check construction (`NewRaintankPingProbe` with its timeout and hostname settings, and the fatal exit if that fails) and the ICMP ping itself are foreign calls. Each host's result is an abstract `Outcome`.
- The goroutine fan-out, the wait group, the buffered channel and the 5-second ticker are replaced by one `Tick` call. That call takes the outcomes in arrival order, one per host.
- The scheduler's mutex is not modelled. Each tick is an atomic step.
- Logging is left out. The metrics library appears only as the gauge value.
- The float64 conversions in the threshold comparison are exact for these small non-negative integers, so the comparison is modelled over `int`.
- HealthGate.Apply: the internals of an instance's Stop and Run are not part of this model. Run is counted as a call even when the instance is already running. The model does not claim that such a call is a no-op for the instance's execution loop.
