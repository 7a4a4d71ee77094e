/** The load balancer: circuit breaker, scheduler (preference, round-robin rotation)
    and the failover loop over the ordered candidates. */
module Balancer {
  import opened Types
  import opened Executor
  import Config

  // ---------------------------------------------------------------------------
  // Circuit breaker
  // ---------------------------------------------------------------------------

  /** A provider is cooling down while its recorded deadline lies strictly after `now`.
      (A deadline of 0 counts as no entry; with `now` a natural number that changes nothing.) */
  predicate CoolingDown(cooldowns: map<string, int>, providerId: string, now: nat) {
    providerId in cooldowns && cooldowns[providerId] != 0 && cooldowns[providerId] > now
  }

  /** The steps whose provider is not cooling down, in their original order. */
  function Active(steps: seq<RouteStep>, cooldowns: map<string, int>, now: nat): (r: seq<RouteStep>)
    ensures |r| <= |steps|
  {
    if steps == [] then []
    else
      var rest := Active(steps[1..], cooldowns, now);
      if CoolingDown(cooldowns, steps[0].providerId, now) then rest else [steps[0]] + rest
  }

  /** The filter keeps exactly the steps whose provider is not cooling down. */
  lemma {:induction false} ActiveMembers(steps: seq<RouteStep>, cooldowns: map<string, int>, now: nat)
    ensures forall s :: s in Active(steps, cooldowns, now) ==> s in steps && !CoolingDown(cooldowns, s.providerId, now)
    ensures forall s :: s in steps && !CoolingDown(cooldowns, s.providerId, now) ==> s in Active(steps, cooldowns, now)
    ensures Active(steps, cooldowns, now) == [] <==> forall s :: s in steps ==> CoolingDown(cooldowns, s.providerId, now)
  {
    if steps != [] {
      ActiveMembers(steps[1..], cooldowns, now);
      assert forall s :: s in steps ==> s == steps[0] || s in steps[1..];
    }
  }

  /** Filtering commutes with concatenation, so it keeps the original relative order. */
  lemma {:induction false} ActiveAppend(a: seq<RouteStep>, b: seq<RouteStep>, cooldowns: map<string, int>, now: nat)
    ensures Active(a + b, cooldowns, now) == Active(a, cooldowns, now) + Active(b, cooldowns, now)
  {
    if a == [] {
      assert a + b == b;
    } else {
      assert (a + b)[0] == a[0];
      assert (a + b)[1..] == a[1..] + b;
      ActiveAppend(a[1..], b, cooldowns, now);
    }
  }

  /** A provider tripped at time t0 is skipped strictly before t0 + cooldown and is
      eligible again from the deadline on. */
  lemma TripThenRecover(steps: seq<RouteStep>, cooldowns: map<string, int>, providerId: string, t0: nat, t: nat)
    ensures CoolingDown(cooldowns[providerId := t0 + RATE_LIMIT_COOLDOWN], providerId, t)
            <==> t < t0 + RATE_LIMIT_COOLDOWN
    ensures forall s :: s in steps && s.providerId == providerId ==>
              (s in Active(steps, cooldowns[providerId := t0 + RATE_LIMIT_COOLDOWN], t)
               <==> t >= t0 + RATE_LIMIT_COOLDOWN)
  {
    ActiveMembers(steps, cooldowns[providerId := t0 + RATE_LIMIT_COOLDOWN], t);
  }

  // ---------------------------------------------------------------------------
  // Scheduler
  // ---------------------------------------------------------------------------

  /** The first index of a step of the given provider. */
  function FindProvider(steps: seq<RouteStep>, providerId: string): (r: Option<nat>)
    ensures r.Some? ==> r.value < |steps| && steps[r.value].providerId == providerId
    ensures r.Some? ==> forall j :: 0 <= j < r.value ==> steps[j].providerId != providerId
    ensures r.None? ==> forall j :: 0 <= j < |steps| ==> steps[j].providerId != providerId
  {
    if steps == [] then None
    else if steps[0].providerId == providerId then Some(0)
    else
      match FindProvider(steps[1..], providerId)
      case None => None
      case Some(i) => Some(i + 1)
  }

  /** The position of the preferred provider among the steps; an absent or empty
      preference finds nothing. */
  function PreferredIndex(steps: seq<RouteStep>, preferred: Option<string>): Option<nat> {
    if preferred.Some? && preferred.value != "" then FindProvider(steps, preferred.value) else None
  }

  /** The step at `i` first, the others after it in their original order. */
  function MoveToFront(s: seq<RouteStep>, i: nat): (r: seq<RouteStep>)
    requires i < |s|
    ensures |r| == |s| && r[0] == s[i]
    ensures r[1..] == s[..i] + s[i + 1..]
    ensures multiset(r) == multiset(s)
  {
    assert s == s[..i] + [s[i]] + s[i + 1..];
    [s[i]] + (s[..i] + s[i + 1..])
  }

  /** Left rotation by `k` places. */
  function RotateLeft(s: seq<RouteStep>, k: nat): (r: seq<RouteStep>)
    requires k <= |s|
    ensures |r| == |s|
    ensures forall j :: 0 <= j < |s| ==> r[j] == s[(j + k) % |s|]
    ensures multiset(r) == multiset(s)
  {
    var r := s[k..] + s[..k];
    assert s == s[..k] + s[k..];
    forall j | 0 <= j < |s|
      ensures r[j] == s[(j + k) % |s|]
    {
      RotatedAt(s, k, j);
    }
    r
  }

  /** Position j of the rotation s[k..] + s[..k] holds s[(j + k) mod |s|]. */
  lemma RotatedAt(s: seq<RouteStep>, k: nat, j: nat)
    requires k <= |s| && j < |s|
    ensures (s[k..] + s[..k])[j] == s[(j + k) % |s|]
  {
    if j < |s| - k {
      ModUnique(j + k, |s|, 0, j + k);
    } else {
      ModUnique(j + k, |s|, 1, j + k - |s|);
    }
  }

  /** A model's round-robin counter; a missing entry reads as 0. */
  function CountOf(counters: map<string, nat>, modelName: string): nat {
    if modelName in counters then counters[modelName] else 0
  }

  /** Whether the scheduler rotates: some step is active and no active step belongs
      to the preferred provider. */
  predicate Rotates(active: seq<RouteStep>, preferred: Option<string>) {
    active != [] && PreferredIndex(active, preferred).None?
  }

  /** The order in which one request tries its candidates, given the route, its
      active part and the model's round-robin counter before the request. */
  function Prioritize(steps: seq<RouteStep>, active: seq<RouteStep>, preferred: Option<string>, count: nat)
    : (r: seq<RouteStep>)
    ensures active == [] ==> r == steps
    ensures active != [] ==> multiset(r) == multiset(active)
    ensures active != [] && preferred.Some? && preferred.value != "" && (exists s :: s in active && s.providerId == preferred.value) ==>
              r[0].providerId == preferred.value
    ensures Rotates(active, preferred) ==> r[0] == active[count % |active|]
  {
    if active == [] then steps
    else match PreferredIndex(active, preferred)
      case Some(i) => MoveToFront(active, i)
      case None => RotateLeft(active, count % |active|)
  }

  /** Every request tries only steps of its route, and never fewer than the active ones. */
  lemma PrioritizedFromRoute(steps: seq<RouteStep>, preferred: Option<string>, count: nat, cooldowns: map<string, int>, now: nat)
    ensures var r := Prioritize(steps, Active(steps, cooldowns, now), preferred, count);
      && (forall s :: s in r ==> s in steps)
      && (forall s :: s in steps && !CoolingDown(cooldowns, s.providerId, now) ==> s in r)
      && (multiset(r) == multiset(steps) || multiset(r) == multiset(Active(steps, cooldowns, now)))
  {
    var active := Active(steps, cooldowns, now);
    var r := Prioritize(steps, active, preferred, count);
    ActiveMembers(steps, cooldowns, now);
    if active != [] {
      forall s | s in r ensures s in steps {
        assert s in multiset(active);
      }
      forall s | s in steps && !CoolingDown(cooldowns, s.providerId, now) ensures s in r {
        assert s in multiset(r);
      }
    }
  }

  /** Round-robin fairness: over N consecutive rotations with counters c, c+1, ...,
      c+N-1 of an N-element list, every element comes first exactly once. */
  lemma RotationFairness(active: seq<RouteStep>, c: nat)
    requires |active| > 0
    ensures multiset(seq(|active|, j requires 0 <= j < |active| => RotateLeft(active, (c + j) % |active|)[0]))
            == multiset(active)
  {
    var n := |active|;
    var heads := seq(n, j requires 0 <= j < n => RotateLeft(active, (c + j) % n)[0]);
    var rot := RotateLeft(active, c % n);
    forall j | 0 <= j < n
      ensures heads[j] == rot[j]
    {
      var k := (c + j) % n;
      ModUnique(0 + k, n, 0, k);
      assert heads[j] == RotateLeft(active, k)[0] == active[(0 + k) % n] == active[k];
      ModAddLeft(c, j, n);
    }
    assert heads == rot;
  }

  lemma {:induction false} ModAddLeft(c: nat, j: nat, n: nat)
    requires n > 0
    ensures (j + c % n) % n == (c + j) % n
    decreases c
  {
    if c >= n {
      ModSub(c, n);
      ModSub(c + j, n);
      ModAddLeft(c - n, j, n);
      assert c - n + j == c + j - n;
    } else {
      ModUnique(c, n, 0, c);
    }
  }

  lemma ModSub(x: nat, n: nat)
    requires x >= n > 0
    ensures x % n == (x - n) % n
  {
    ModUnique(x - n, n, x / n - 1, x % n);
  }

  /** Euclidean remainders are unique. */
  lemma ModUnique(x: int, n: int, q: int, r: int)
    requires n > 0 && 0 <= r < n && x == q * n + r
    ensures x % n == r
  {
    var q0, r0 := x / n, x % n;
    var d := q0 - q;
    assert d * n == q0 * n - q * n;
    assert d * n == r - r0;
    if d >= 1 {
      MulAtLeast(d, n);
    } else if d <= -1 {
      MulAtLeast(-d, n);
    }
  }

  lemma MulAtLeast(a: int, n: int)
    requires a >= 1 && n > 0
    ensures a * n >= n
  {
    assert a * n == (a - 1) * n + n;
  }

  // ---------------------------------------------------------------------------
  // Route and registry resolution
  // ---------------------------------------------------------------------------

  /** The model's own route, else the `default` route, else no candidates. */
  function ResolveRoute(routing: map<string, seq<RouteStep>>, model: string): (r: seq<RouteStep>)
    ensures model in routing ==> r == routing[model]
    ensures model !in routing && "default" in routing ==> r == routing["default"]
    ensures model !in routing && "default" !in routing ==> r == []
  {
    if model in routing then routing[model]
    else if "default" in routing then routing["default"]
    else []
  }

  /** With the built-in route table every model name resolves to a non-empty route. */
  lemma SystemRoutesNeverEmpty(model: string)
    ensures |ResolveRoute(Config.SystemRouting(), model)| == 2
  {
  }

  /** The registry overridden key by key by the request's own providers. */
  function MergeProviders(system: map<string, ProviderConfig>, custom: Option<map<string, ProviderConfig>>)
    : (r: map<string, ProviderConfig>)
    ensures custom.None? ==> r == system
    ensures custom.Some? ==> r.Keys == system.Keys + custom.value.Keys
    ensures custom.Some? ==> forall id :: id in custom.value ==> r[id] == custom.value[id]
    ensures forall id :: id in system && (custom.None? || id !in custom.value) ==> r[id] == system[id]
  {
    if custom.Some? then system + custom.value else system
  }

  // ---------------------------------------------------------------------------
  // Failover
  // ---------------------------------------------------------------------------

  /** The end of the failover loop: the index and step that was served, or the message
      of the last failure (none when nothing was attempted). */
  datatype Outcome = Served(index: nat, step: RouteStep) | Exhausted(detail: Option<string>)

  function FailureMessage(r: ExecResult): string {
    match r
    case Delivered(_) => ""
    case RateLimited(m) => m
    case UpstreamError(m) => m
  }

  /** What the loop does with the steps from `i` on, given the cooldowns and the last
      failure so far; the provider's answer to step i is `answer(i)`. */
  function FailoverFrom(steps: seq<RouteStep>, providers: map<string, ProviderConfig>,
                        answer: nat -> Upstream, now: nat,
                        i: nat, cooldowns: map<string, int>, last: Option<string>)
    : (r: (Outcome, map<string, int>))
    ensures r.0.Served? ==> i <= r.0.index < |steps| && r.0.step == steps[r.0.index] && r.0.step.providerId in providers
    ensures cooldowns.Keys <= r.1.Keys
    decreases |steps| - i
  {
    if i >= |steps| then (Exhausted(last), cooldowns)
    else
      var id := steps[i].providerId;
      if id !in providers then FailoverFrom(steps, providers, answer, now, i + 1, cooldowns, last)
      else
        match Execute(providers[id], answer(i))
        case Delivered(_) => (Served(i, steps[i]), cooldowns)
        case RateLimited(m) =>
          FailoverFrom(steps, providers, answer, now, i + 1, cooldowns[id := now + RATE_LIMIT_COOLDOWN], Some(m))
        case UpstreamError(m) =>
          FailoverFrom(steps, providers, answer, now, i + 1, cooldowns, Some(m))
  }

  /** Step j has a provider configuration and the provider answered it successfully. */
  predicate Succeeds(steps: seq<RouteStep>, providers: map<string, ProviderConfig>, answer: nat -> Upstream, j: nat)
    requires j < |steps|
  {
    steps[j].providerId in providers && Execute(providers[steps[j].providerId], answer(j)).Delivered?
  }

  /** Step j has a provider configuration and the provider reported a rate limit. */
  predicate Trips(steps: seq<RouteStep>, providers: map<string, ProviderConfig>, answer: nat -> Upstream, j: nat)
    requires j < |steps|
  {
    steps[j].providerId in providers && Execute(providers[steps[j].providerId], answer(j)).RateLimited?
  }

  /** Some step in [lo, hi) of the given provider reported a rate limit. */
  predicate TrippedIn(steps: seq<RouteStep>, providers: map<string, ProviderConfig>, answer: nat -> Upstream,
                      lo: nat, hi: nat, providerId: string)
    requires hi <= |steps|
  {
    exists j :: lo <= j < hi && Trips(steps, providers, answer, j) && steps[j].providerId == providerId
  }

  /** The failure message of the last configured step in [lo, hi), or `last` if none. */
  function LastFailure(steps: seq<RouteStep>, providers: map<string, ProviderConfig>, answer: nat -> Upstream,
                       lo: nat, hi: nat, last: Option<string>): Option<string>
    requires hi <= |steps|
    decreases hi
  {
    if hi <= lo then last
    else if steps[hi - 1].providerId in providers then
      Some(FailureMessage(Execute(providers[steps[hi - 1].providerId], answer(hi - 1))))
    else LastFailure(steps, providers, answer, lo, hi - 1, last)
  }

  /** The loop serves the FIRST step whose provider is configured and answers successfully;
      when no step does, it reports the message of the last failure. */
  lemma {:induction false} FailoverOutcome(steps: seq<RouteStep>, providers: map<string, ProviderConfig>,
                                           answer: nat -> Upstream, now: nat,
                                           i: nat, cooldowns: map<string, int>, last: Option<string>)
    requires i <= |steps|
    ensures var o := FailoverFrom(steps, providers, answer, now, i, cooldowns, last).0;
      && (o.Served? ==>
            && i <= o.index < |steps| && o.step == steps[o.index]
            && Succeeds(steps, providers, answer, o.index)
            && forall j :: i <= j < o.index ==> !Succeeds(steps, providers, answer, j))
      && (o.Exhausted? ==>
            && (forall j :: i <= j < |steps| ==> !Succeeds(steps, providers, answer, j))
            && o.detail == LastFailure(steps, providers, answer, i, |steps|, last))
    decreases |steps| - i
  {
    if i < |steps| {
      var id := steps[i].providerId;
      if id !in providers {
        FailoverOutcome(steps, providers, answer, now, i + 1, cooldowns, last);
        LastFailureSkip(steps, providers, answer, i, |steps|, last);
      } else {
        match Execute(providers[id], answer(i))
        case Delivered(_) =>
        case RateLimited(m) =>
          FailoverOutcome(steps, providers, answer, now, i + 1, cooldowns[id := now + RATE_LIMIT_COOLDOWN], Some(m));
          LastFailureStep(steps, providers, answer, i, |steps|, last);
        case UpstreamError(m) =>
          FailoverOutcome(steps, providers, answer, now, i + 1, cooldowns, Some(m));
          LastFailureStep(steps, providers, answer, i, |steps|, last);
      }
    }
  }

  /** Starting one step later past an unconfigured step does not change the last failure. */
  lemma {:induction false} LastFailureSkip(steps: seq<RouteStep>, providers: map<string, ProviderConfig>,
                                           answer: nat -> Upstream, i: nat, hi: nat, last: Option<string>)
    requires i < hi <= |steps| && steps[i].providerId !in providers
    ensures LastFailure(steps, providers, answer, i + 1, hi, last) == LastFailure(steps, providers, answer, i, hi, last)
    decreases hi
  {
    if hi - 1 > i && steps[hi - 1].providerId !in providers {
      LastFailureSkip(steps, providers, answer, i, hi - 1, last);
    }
  }

  /** Past a configured step i, the failure recorded for step i takes the place of `last`. */
  lemma {:induction false} LastFailureStep(steps: seq<RouteStep>, providers: map<string, ProviderConfig>,
                                           answer: nat -> Upstream, i: nat, hi: nat, last: Option<string>)
    requires i < hi <= |steps| && steps[i].providerId in providers
    ensures LastFailure(steps, providers, answer, i + 1, hi,
                        Some(FailureMessage(Execute(providers[steps[i].providerId], answer(i)))))
            == LastFailure(steps, providers, answer, i, hi, last)
    decreases hi
  {
    if hi - 1 > i && steps[hi - 1].providerId !in providers {
      LastFailureStep(steps, providers, answer, i, hi - 1, last);
    }
  }

  /** Where the loop stopped attempting: the served index, else the end of the steps. */
  function StopOf(o: Outcome, n: nat): nat {
    if o.Served? && o.index < n then o.index else n
  }

  /** `after` is `before` with a cooldown of now + 5 minutes opened for exactly the
      providers that reported a rate limit among the steps in [lo, hi). */
  ghost predicate CooldownsAfter(steps: seq<RouteStep>, providers: map<string, ProviderConfig>, answer: nat -> Upstream,
                           now: nat, lo: nat, hi: nat, before: map<string, int>, after: map<string, int>)
    requires hi <= |steps|
  {
    forall id ::
      && (id in after <==> id in before || TrippedIn(steps, providers, answer, lo, hi, id))
      && (id in after ==>
            after[id] == if TrippedIn(steps, providers, answer, lo, hi, id)
                         then now + RATE_LIMIT_COOLDOWN else before[id])
  }

  /** A step that did not report a rate limit adds nothing to the cooldowns. */
  lemma CooldownsAfterQuiet(steps: seq<RouteStep>, providers: map<string, ProviderConfig>, answer: nat -> Upstream,
                            now: nat, lo: nat, hi: nat, before: map<string, int>, after: map<string, int>)
    requires lo < hi <= |steps| && !Trips(steps, providers, answer, lo)
    requires CooldownsAfter(steps, providers, answer, now, lo + 1, hi, before, after)
    ensures CooldownsAfter(steps, providers, answer, now, lo, hi, before, after)
  {
    forall id
      ensures TrippedIn(steps, providers, answer, lo, hi, id) <==> TrippedIn(steps, providers, answer, lo + 1, hi, id)
    {
      if TrippedIn(steps, providers, answer, lo, hi, id) {
        var j :| lo <= j < hi && Trips(steps, providers, answer, j) && steps[j].providerId == id;
        assert j != lo;
      }
    }
  }

  /** A step that reported a rate limit opens its provider's cooldown before the rest. */
  lemma CooldownsAfterTrip(steps: seq<RouteStep>, providers: map<string, ProviderConfig>, answer: nat -> Upstream,
                           now: nat, lo: nat, hi: nat, before: map<string, int>, after: map<string, int>)
    requires lo < hi <= |steps| && Trips(steps, providers, answer, lo)
    requires CooldownsAfter(steps, providers, answer, now, lo + 1, hi,
                            before[steps[lo].providerId := now + RATE_LIMIT_COOLDOWN], after)
    ensures CooldownsAfter(steps, providers, answer, now, lo, hi, before, after)
  {
    var pid := steps[lo].providerId;
    forall id
      ensures TrippedIn(steps, providers, answer, lo, hi, id) <==>
              (id == pid || TrippedIn(steps, providers, answer, lo + 1, hi, id))
    {
      if id == pid {
        assert lo <= lo < hi && Trips(steps, providers, answer, lo) && steps[lo].providerId == id;
      }
      if TrippedIn(steps, providers, answer, lo, hi, id) && id != pid {
        var j :| lo <= j < hi && Trips(steps, providers, answer, j) && steps[j].providerId == id;
        assert j != lo;
      }
    }
  }

  /** The loop opens a cooldown of now + 5 minutes for exactly the providers that reported
      a rate limit among the steps it attempted; every other entry is left as it was. */
  lemma {:induction false} FailoverCooldowns(steps: seq<RouteStep>, providers: map<string, ProviderConfig>,
                                             answer: nat -> Upstream, now: nat,
                                             i: nat, cooldowns: map<string, int>, last: Option<string>)
    requires i <= |steps|
    ensures var r := FailoverFrom(steps, providers, answer, now, i, cooldowns, last);
      CooldownsAfter(steps, providers, answer, now, i, StopOf(r.0, |steps|), cooldowns, r.1)
    decreases |steps| - i
  {
    var r := FailoverFrom(steps, providers, answer, now, i, cooldowns, last);
    if i < |steps| {
      var pid := steps[i].providerId;
      FailoverOutcome(steps, providers, answer, now, i, cooldowns, last);
      if pid !in providers {
        FailoverCooldowns(steps, providers, answer, now, i + 1, cooldowns, last);
        CooldownsAfterQuiet(steps, providers, answer, now, i, StopOf(r.0, |steps|), cooldowns, r.1);
      } else {
        match Execute(providers[pid], answer(i))
        case Delivered(_) =>
          assert r == (Served(i, steps[i]), cooldowns);
          assert StopOf(r.0, |steps|) == i;
          assert forall id :: !TrippedIn(steps, providers, answer, i, i, id);
        case RateLimited(m) =>
          var c' := cooldowns[pid := now + RATE_LIMIT_COOLDOWN];
          FailoverCooldowns(steps, providers, answer, now, i + 1, c', Some(m));
          assert r == FailoverFrom(steps, providers, answer, now, i + 1, c', Some(m));
          CooldownsAfterTrip(steps, providers, answer, now, i, StopOf(r.0, |steps|), cooldowns, r.1);
        case UpstreamError(m) =>
          FailoverCooldowns(steps, providers, answer, now, i + 1, cooldowns, Some(m));
          assert r == FailoverFrom(steps, providers, answer, now, i + 1, cooldowns, Some(m));
          CooldownsAfterQuiet(steps, providers, answer, now, i, StopOf(r.0, |steps|), cooldowns, r.1);
      }
    } else {
      assert forall id :: !TrippedIn(steps, providers, answer, i, i, id);
    }
  }

  // ---------------------------------------------------------------------------
  // Replies
  // ---------------------------------------------------------------------------

  datatype ReplyBody = EventStream(step: RouteStep) | ErrorJson(error: string, detail: Option<string>)

  /** A reply of the gateway: status, headers (lower-cased names) and body. */
  datatype GatewayReply = GatewayReply(status: nat, headers: map<string, string>, body: ReplyBody)

  const X_PROVIDER_USED := "x-provider-used"
  const TEXT_PLAIN := "text/plain;charset=UTF-8"
  const ALL_FAILED := "Todos los proveedores fallaron"
  const INVALID_JSON := "JSON Inválido"

  function ReplyFor(o: Outcome): (r: GatewayReply)
    ensures r.status == 200 <==> o.Served?
    ensures o.Served? ==> X_PROVIDER_USED in r.headers && r.headers[X_PROVIDER_USED] == o.step.providerId
    ensures o.Exhausted? ==> r.status == 503 && r.body == ErrorJson(ALL_FAILED, o.detail)
  {
    match o
    case Served(_, step) =>
      GatewayReply(200, map[CONTENT_TYPE := "text/event-stream", X_PROVIDER_USED := step.providerId], EventStream(step))
    case Exhausted(detail) =>
      GatewayReply(503, map[CONTENT_TYPE := TEXT_PLAIN], ErrorJson(ALL_FAILED, detail))
  }

  /** What one request does to the balancer: the outcome of the failover loop over its
      prioritized candidates, and the round-robin counters and cooldowns afterwards. */
  datatype Dispatched = Dispatched(outcome: Outcome, counters: map<string, nat>, cooldowns: map<string, int>)

  /** One request against the route table `routing`, the provider registry `system`,
      and the balancer state `counters` and `cooldowns` before it. */
  function Dispatch(routing: map<string, seq<RouteStep>>, system: map<string, ProviderConfig>, req: ChatRequest,
                    counters: map<string, nat>, cooldowns: map<string, int>, answer: nat -> Upstream, now: nat)
    : Dispatched
  {
    var base := ResolveRoute(routing, req.model);
    var active := Active(base, cooldowns, now);
    var count := CountOf(counters, req.model);
    var order := Prioritize(base, active, req.preferredProvider, count);
    var run := FailoverFrom(order, MergeProviders(system, req.customProviders), answer, now, 0, cooldowns, None);
    Dispatched(run.0, if Rotates(active, req.preferredProvider) then counters[req.model := count + 1] else counters, run.1)
  }

  /** The outcome and cooldowns of `Dispatch` are the run of the failover loop over the
      prioritized order of the route's active steps. */
  lemma DispatchRun(routing: map<string, seq<RouteStep>>, system: map<string, ProviderConfig>, req: ChatRequest,
                    counters: map<string, nat>, cooldowns: map<string, int>, answer: nat -> Upstream, now: nat)
    ensures var base := ResolveRoute(routing, req.model);
      var order := Prioritize(base, Active(base, cooldowns, now), req.preferredProvider, CountOf(counters, req.model));
      var run := FailoverFrom(order, MergeProviders(system, req.customProviders), answer, now, 0, cooldowns, None);
      && Dispatch(routing, system, req, counters, cooldowns, answer, now).outcome == run.0
      && Dispatch(routing, system, req, counters, cooldowns, answer, now).cooldowns == run.1
  {
  }

  /** The counters after `Dispatch`: the requested model's counter advances exactly when
      the scheduler rotates. */
  lemma DispatchCounters(routing: map<string, seq<RouteStep>>, system: map<string, ProviderConfig>, req: ChatRequest,
                         counters: map<string, nat>, cooldowns: map<string, int>, answer: nat -> Upstream, now: nat,
                         active: seq<RouteStep>, counters': map<string, nat>)
    requires active == Active(ResolveRoute(routing, req.model), cooldowns, now)
    requires Rotates(active, req.preferredProvider) ==> counters' == counters[req.model := CountOf(counters, req.model) + 1]
    requires !Rotates(active, req.preferredProvider) ==> counters' == counters
    ensures Dispatch(routing, system, req, counters, cooldowns, answer, now).counters == counters'
  {
  }

  /** What every request promises: a 200 from a configured step of its route, naming the
      provider, or the 503 that all providers failed (always so for an empty route); only
      the requested model's counter moves, by at most one; cooldowns are only opened. */
  lemma DispatchSound(routing: map<string, seq<RouteStep>>, system: map<string, ProviderConfig>, req: ChatRequest,
                      counters: map<string, nat>, cooldowns: map<string, int>, answer: nat -> Upstream, now: nat)
    ensures var d := Dispatch(routing, system, req, counters, cooldowns, answer, now);
      var reply := ReplyFor(d.outcome);
      var base := ResolveRoute(routing, req.model);
      var providers := MergeProviders(system, req.customProviders);
      && (reply.status == 200 || reply.status == 503)
      && (reply.status == 200 ==>
            && reply.body.EventStream?
            && X_PROVIDER_USED in reply.headers
            && reply.body.step in base
            && reply.body.step.providerId in providers
            && reply.headers[X_PROVIDER_USED] == reply.body.step.providerId)
      && (reply.status == 503 ==> reply.body.ErrorJson? && reply.body.error == ALL_FAILED)
      && (base == [] ==> reply == ReplyFor(Exhausted(None)))
      && (forall m :: m != req.model ==>
            (m in d.counters <==> m in counters) && (m in d.counters ==> d.counters[m] == counters[m]))
      && (CountOf(d.counters, req.model) == CountOf(counters, req.model)
          || CountOf(d.counters, req.model) == CountOf(counters, req.model) + 1)
      && (forall id :: id in cooldowns ==> id in d.cooldowns)
      && (forall id :: id in d.cooldowns ==>
            d.cooldowns[id] == now + RATE_LIMIT_COOLDOWN || (id in cooldowns && d.cooldowns[id] == cooldowns[id]))
  {
    var base := ResolveRoute(routing, req.model);
    var providers := MergeProviders(system, req.customProviders);
    var active := Active(base, cooldowns, now);
    var count := CountOf(counters, req.model);
    var order := Prioritize(base, active, req.preferredProvider, count);
    PrioritizedFromRoute(base, req.preferredProvider, count, cooldowns, now);
    FailoverOutcome(order, providers, answer, now, 0, cooldowns, None);
    FailoverCooldowns(order, providers, answer, now, 0, cooldowns, None);
    var run := FailoverFrom(order, providers, answer, now, 0, cooldowns, None);
    assert Dispatch(routing, system, req, counters, cooldowns, answer, now).outcome == run.0;
    assert Dispatch(routing, system, req, counters, cooldowns, answer, now).cooldowns == run.1;
  }

  // ---------------------------------------------------------------------------
  // The balancer
  // ---------------------------------------------------------------------------

  class LoadBalancer {
    /** Per-model round-robin counters. */
    var rotationCounters: map<string, nat>
    /** Per-provider cooldown deadlines (milliseconds). */
    var cooldowns: map<string, int>

    constructor ()
      ensures rotationCounters == map[] && cooldowns == map[]
    {
      rotationCounters := map[];
      cooldowns := map[];
    }

    /** Orders the candidates of one request: filter by the circuit breaker (falling back
        to all candidates when none survives), then the preferred provider first if it
        survived, else a rotation by the model's counter, which then advances. */
    method GetPrioritizedSteps(modelName: string, baseSteps: seq<RouteStep>, preferred: Option<string>, now: nat)
      returns (r: seq<RouteStep>)
      modifies this`rotationCounters
      ensures r == Prioritize(baseSteps, Active(baseSteps, cooldowns, now), preferred, CountOf(old(rotationCounters), modelName))
      ensures Rotates(Active(baseSteps, cooldowns, now), preferred) ==>
                rotationCounters == old(rotationCounters)[modelName := CountOf(old(rotationCounters), modelName) + 1]
      ensures !Rotates(Active(baseSteps, cooldowns, now), preferred) ==> rotationCounters == old(rotationCounters)
    {
      var activeSteps := Active(baseSteps, cooldowns, now);
      if activeSteps == [] {
        assert !Rotates(activeSteps, preferred);
        return baseSteps;
      }
      if preferred.Some? && preferred.value != "" {
        var index := FindProvider(activeSteps, preferred.value);
        if index.Some? {
          assert !Rotates(activeSteps, preferred);
          r := MoveToFront(activeSteps, index.value);
          return;
        }
      }
      assert Rotates(activeSteps, preferred);
      var currentCount := CountOf(rotationCounters, modelName);
      var offset := currentCount % |activeSteps|;
      rotationCounters := rotationCounters[modelName := currentCount + 1];
      assert rotationCounters == old(rotationCounters)[modelName := CountOf(old(rotationCounters), modelName) + 1];
      r := RotateLeft(activeSteps, offset);
    }

    /** Tries the ordered steps once each: a step without provider configuration is
        skipped, the first success ends the loop, a rate limit opens the provider's
        cooldown, any failure becomes the last error. */
    method RunFailover(steps: seq<RouteStep>, providers: map<string, ProviderConfig>, req: ChatRequest,
                       inbound: map<string, string>, answer: nat -> Upstream, now: nat)
      returns (outcome: Outcome)
      modifies this`cooldowns
      ensures (outcome, cooldowns) == FailoverFrom(steps, providers, answer, now, 0, old(cooldowns), None)
    {
      var i := 0;
      var lastError: Option<string> := None;
      while i < |steps|
        invariant 0 <= i <= |steps|
        invariant FailoverFrom(steps, providers, answer, now, 0, old(cooldowns), None)
                  == FailoverFrom(steps, providers, answer, now, i, cooldowns, lastError)
      {
        var step := steps[i];
        if step.providerId in providers {
          var sent, result := ExecuteRequest(providers[step.providerId], step.targetModel, req, inbound, answer(i));
          match result
          case Delivered(_) =>
            return Served(i, step);
          case RateLimited(m) =>
            cooldowns := cooldowns[step.providerId := now + RATE_LIMIT_COOLDOWN];
            lastError := Some(m);
          case UpstreamError(m) =>
            lastError := Some(m);
        }
        i := i + 1;
      }
      outcome := Exhausted(lastError);
    }

    /** Resolves the route and the providers, orders the candidates and runs the
        failover loop over them. */
    method ProcessRequest(registry: Config.Registry, req: ChatRequest, inbound: map<string, string>,
                          answer: nat -> Upstream, now: nat)
      returns (reply: GatewayReply)
      modifies this
      ensures var d := Dispatch(registry.routing, registry.providers, req, old(rotationCounters), old(cooldowns), answer, now);
                reply == ReplyFor(d.outcome) && rotationCounters == d.counters && cooldowns == d.cooldowns
      ensures var base := ResolveRoute(registry.routing, req.model);
        var providers := MergeProviders(registry.providers, req.customProviders);
        && (reply.status == 200 || reply.status == 503)
        && (reply.status == 200 ==>
              && reply.body.EventStream?
              && X_PROVIDER_USED in reply.headers
              && reply.body.step in base
              && reply.body.step.providerId in providers
              && reply.headers[X_PROVIDER_USED] == reply.body.step.providerId)
        && (reply.status == 503 ==> reply.body.ErrorJson? && reply.body.error == ALL_FAILED)
        && (base == [] ==> reply == ReplyFor(Exhausted(None)))
      ensures forall m :: m != req.model ==>
                (m in rotationCounters <==> m in old(rotationCounters))
                && (m in rotationCounters ==> rotationCounters[m] == old(rotationCounters)[m])
      ensures var c := CountOf(old(rotationCounters), req.model);
                CountOf(rotationCounters, req.model) == c || CountOf(rotationCounters, req.model) == c + 1
      ensures forall id :: id in old(cooldowns) ==> id in cooldowns
      ensures forall id :: id in cooldowns ==>
                cooldowns[id] == now + RATE_LIMIT_COOLDOWN || (id in old(cooldowns) && cooldowns[id] == old(cooldowns)[id])
    {
      ghost var counters0 := rotationCounters;
      ghost var cooldowns0 := cooldowns;
      var base := ResolveRoute(registry.routing, req.model);
      var providers := MergeProviders(registry.providers, req.customProviders);
      ghost var active := Active(base, cooldowns, now);
      var prioritized := GetPrioritizedSteps(req.model, base, req.preferredProvider, now);
      ghost var counters1 := rotationCounters;
      assert cooldowns == cooldowns0;
      assert prioritized == Prioritize(base, active, req.preferredProvider, CountOf(counters0, req.model));
      assert Rotates(active, req.preferredProvider) ==> counters1 == counters0[req.model := CountOf(counters0, req.model) + 1];
      assert !Rotates(active, req.preferredProvider) ==> counters1 == counters0;
      var outcome := RunFailover(prioritized, providers, req, inbound, answer, now);
      reply := ReplyFor(outcome);
      DispatchRun(registry.routing, registry.providers, req, counters0, cooldowns0, answer, now);
      DispatchCounters(registry.routing, registry.providers, req, counters0, cooldowns0, answer, now,
                       active, counters1);
      DispatchSound(registry.routing, registry.providers, req, counters0, cooldowns0, answer, now);
    }

    /** The entry point for a raw body: a body that is not valid JSON is answered 400. */
    method HandleRequest(registry: Config.Registry, body: Option<ChatRequest>, inbound: map<string, string>,
                         answer: nat -> Upstream, now: nat)
      returns (reply: GatewayReply)
      modifies this
      ensures body.None? ==> reply == GatewayReply(400, map[CONTENT_TYPE := TEXT_PLAIN], ErrorJson(INVALID_JSON, None))
      ensures body.None? ==> rotationCounters == old(rotationCounters) && cooldowns == old(cooldowns)
      ensures body.Some? ==> reply.status == 200 || reply.status == 503
      ensures body.Some? ==>
                var d := Dispatch(registry.routing, registry.providers, body.value, old(rotationCounters), old(cooldowns), answer, now);
                reply == ReplyFor(d.outcome) && rotationCounters == d.counters && cooldowns == d.cooldowns
    {
      if body.None? {
        return GatewayReply(400, map[CONTENT_TYPE := TEXT_PLAIN], ErrorJson(INVALID_JSON, None));
      }
      reply := ProcessRequest(registry, body.value, inbound, answer, now);
    }
  }
}
