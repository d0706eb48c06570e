/** Per-tenant admission control of `query_gateway.py`: a counter under a lock, a semaphore, a timeout and a
    `finally`, as steps of any number of concurrent requests of any number of tenants.

    A request enters (or is turned away), acquires the semaphore or gives up waiting, finishes its work in
    one way or another, and leaves. Each locked section contains no suspension, so each is one step; the
    release of the semaphore and the decrement of the counter in the `finally` are separate steps. */
module Admission {

  /** An organisation and a logical database. */
  type Tenant = (string, string)

  type Ticket = nat

  /** A tenant's semaphore permits and queue counter. */
  datatype Quota = Quota(free: int, maxConcurrent: int, queueLimit: int, queued: int)

  datatype Phase = Waiting | Running | Leaving

  datatype Request = Request(tenant: Tenant, phase: Phase)

  datatype Limits = Limits(concurrent: nat, queue: int)

  datatype State = State(quotas: map<Tenant, Quota>, live: map<Ticket, Request>)

  const START := State(map[], map[])

  /** How the work of a running request ends; the `finally` treats all alike. */
  datatype Outcome = Success | InvalidSql | PolicyDenied | ExecutionError | Cancelled

  datatype Event =
    | Enter(id: Ticket, tenant: Tenant)
    | Acquire(id: Ticket)
    | GiveUp(id: Ticket, timedOut: bool)
    | Finish(id: Ticket, outcome: Outcome)
    | Leave(id: Ticket)

  function NewQuota(l: Limits): Quota {
    Quota(l.concurrent, l.concurrent, l.queue, 0)
  }

  /** `_get_tenant_quota`. */
  function WithQuota(s: State, l: Limits, t: Tenant): State {
    if t in s.quotas then s else s.(quotas := s.quotas[t := NewQuota(l)])
  }

  predicate InPhase(s: State, id: Ticket, p: Phase) {
    id in s.live && s.live[id].phase == p && s.live[id].tenant in s.quotas
  }

  function QuotaOf(s: State, id: Ticket): Quota
    requires id in s.live && s.live[id].tenant in s.quotas
  {
    s.quotas[s.live[id].tenant]
  }

  /** An event that is not enabled changes nothing. */
  predicate Enabled(s: State, e: Event) {
    match e
    case Enter(id, _) => id !in s.live
    case Acquire(id) => InPhase(s, id, Waiting) && QuotaOf(s, id).free > 0
    case GiveUp(id, _) => InPhase(s, id, Waiting)
    case Finish(id, _) => InPhase(s, id, Running)
    case Leave(id) => InPhase(s, id, Leaving)
  }

  predicate TurnedAway(s: State, l: Limits, t: Tenant) {
    var q := WithQuota(s, l, t).quotas[t];
    q.queued >= q.queueLimit
  }

  /** Update the quota and the phase of a live request. */
  function Move(s: State, id: Ticket, q: Quota, p: Phase): State
    requires id in s.live
  {
    State(s.quotas[s.live[id].tenant := q], s.live[id := s.live[id].(phase := p)])
  }

  function Admit(s: State, id: Ticket, t: Tenant): State
    requires t in s.quotas
  {
    State(s.quotas[t := s.quotas[t].(queued := s.quotas[t].queued + 1)], s.live[id := Request(t, Waiting)])
  }

  function Step(s: State, l: Limits, e: Event): State {
    if !Enabled(s, e) then s
    else
      match e
      case Enter(id, t) =>
        var s' := WithQuota(s, l, t);
        if TurnedAway(s, l, t) then s'
        else Admit(s', id, t)
      case Acquire(id) => Move(s, id, QuotaOf(s, id).(free := QuotaOf(s, id).free - 1), Running)
      case GiveUp(id, _) => Move(s, id, QuotaOf(s, id), Leaving)
      case Finish(id, _) => Move(s, id, QuotaOf(s, id).(free := QuotaOf(s, id).free + 1), Leaving)
      case Leave(id) =>
        var q := QuotaOf(s, id);
        State(s.quotas[s.live[id].tenant := q.(queued := Clamp(q.queued - 1))], s.live - {id})
  }

  /** `max(0, n)`. */
  function Clamp(n: int): int {
    if n < 0 then 0 else n
  }

  function Run(l: Limits, events: seq<Event>): State {
    if events == [] then START else Step(Run(l, events[..|events| - 1]), l, events[|events| - 1])
  }

  // ---- What every step keeps ----

  function Members(s: State, t: Tenant): set<Ticket> {
    set id | id in s.live && s.live[id].tenant == t
  }

  function In(s: State, t: Tenant, p: Phase): set<Ticket> {
    set id | id in s.live && s.live[id].tenant == t && s.live[id].phase == p
  }

  /** The counter counts the requests in flight and stays within the limit; permits and running requests
      add up to the concurrency limit. */
  predicate Balanced(s: State, l: Limits, t: Tenant)
    requires t in s.quotas
  {
    var q := s.quotas[t];
    && q.maxConcurrent == l.concurrent && q.queueLimit == l.queue
    && q.queued == |Members(s, t)| && (q.queued <= l.queue || q.queued == 0)
    && 0 <= q.free && q.free + |In(s, t, Running)| == q.maxConcurrent
  }

  predicate Safe(s: State, l: Limits) {
    && (forall id | id in s.live :: s.live[id].tenant in s.quotas)
    && forall t | t in s.quotas :: Balanced(s, l, t)
  }

  lemma MoveMembers(s: State, id: Ticket, q: Quota, p: Phase, t: Tenant)
    requires id in s.live
    ensures Members(Move(s, id, q, p), t) == Members(s, t)
  {
  }

  /** How many of a tenant's requests a change of phase adds to the running ones. */
  function Gain(from: Phase, to: Phase): int {
    (if to == Running then 1 else 0) - (if from == Running then 1 else 0)
  }

  lemma MoveRunning(s: State, id: Ticket, q: Quota, p: Phase, t: Tenant)
    requires id in s.live
    ensures |In(Move(s, id, q, p), t, Running)|
         == |In(s, t, Running)| + (if s.live[id].tenant == t then Gain(s.live[id].phase, p) else 0)
  {
    var before, after := In(s, t, Running), In(Move(s, id, q, p), t, Running);
    if s.live[id].tenant != t || Gain(s.live[id].phase, p) == 0 {
      assert after == before;
    } else if p == Running {
      assert after == before + {id} && id !in before;
    } else {
      assert after == before - {id} && id in before;
    }
  }

  lemma MoveSafe(s: State, l: Limits, id: Ticket, q: Quota, p: Phase)
    requires Safe(s, l) && id in s.live
    requires q == QuotaOf(s, id).(free := QuotaOf(s, id).free - Gain(s.live[id].phase, p)) && 0 <= q.free
    ensures Safe(Move(s, id, q, p), l)
  {
    var s' := Move(s, id, q, p);
    forall t | t in s'.quotas ensures Balanced(s', l, t) {
      MoveMembers(s, id, q, p, t);
      MoveRunning(s, id, q, p, t);
      assert Balanced(s, l, t);
    }
  }

  lemma CreateSafe(s: State, l: Limits, t: Tenant)
    requires Safe(s, l)
    ensures Safe(WithQuota(s, l, t), l)
  {
    var s' := WithQuota(s, l, t);
    forall u | u in s'.quotas ensures Balanced(s', l, u) {
      assert Members(s', u) == Members(s, u) && In(s', u, Running) == In(s, u, Running);
      if u in s.quotas {
        assert Balanced(s, l, u);
      } else {
        assert Members(s, u) == {} && In(s, u, Running) == {};
      }
    }
  }

  lemma AdmitMembers(s: State, id: Ticket, t: Tenant, u: Tenant)
    requires id !in s.live && t in s.quotas
    ensures |Members(Admit(s, id, t), u)| == |Members(s, u)| + (if u == t then 1 else 0)
  {
    var before, after := Members(s, u), Members(Admit(s, id, t), u);
    if u == t {
      assert after == before + {id} && id !in before;
    } else {
      assert after == before;
    }
  }

  lemma AdmitSafe(s: State, l: Limits, id: Ticket, t: Tenant)
    requires Safe(s, l) && id !in s.live && t in s.quotas && s.quotas[t].queued < s.quotas[t].queueLimit
    ensures Safe(Admit(s, id, t), l)
  {
    var s' := Admit(s, id, t);
    forall u | u in s'.quotas ensures Balanced(s', l, u) {
      assert Balanced(s, l, u);
      assert In(s', u, Running) == In(s, u, Running);
      AdmitMembers(s, id, t, u);
    }
  }

  lemma LeaveSafe(s: State, l: Limits, id: Ticket)
    requires Safe(s, l) && InPhase(s, id, Leaving)
    ensures Safe(Step(s, l, Leave(id)), l)
    ensures QuotaOf(s, id).queued >= 1
  {
    var s', mine := Step(s, l, Leave(id)), s.live[id].tenant;
    assert Balanced(s, l, mine) && id in Members(s, mine);
    forall u | u in s'.quotas ensures Balanced(s', l, u) {
      assert Balanced(s, l, u);
      assert In(s', u, Running) == In(s, u, Running);
      assert Members(s', u) == Members(s, u) - {id};
    }
  }

  /** Every step of every request keeps every tenant's quota balanced. */
  lemma StepSafe(s: State, l: Limits, e: Event)
    requires Safe(s, l)
    ensures Safe(Step(s, l, e), l)
  {
    if Enabled(s, e) {
      match e
      case Enter(id, t) =>
        CreateSafe(s, l, t);
        if !TurnedAway(s, l, t) {
          AdmitSafe(WithQuota(s, l, t), l, id, t);
        }
      case Acquire(id) => MoveSafe(s, l, id, QuotaOf(s, id).(free := QuotaOf(s, id).free - 1), Running);
      case GiveUp(id, _) => MoveSafe(s, l, id, QuotaOf(s, id), Leaving);
      case Finish(id, _) =>
        assert Balanced(s, l, s.live[id].tenant);
        MoveSafe(s, l, id, QuotaOf(s, id).(free := QuotaOf(s, id).free + 1), Leaving);
      case Leave(id) => LeaveSafe(s, l, id);
    }
  }

  /** In every interleaving, every tenant's quota is balanced at every moment. */
  lemma {:induction false} RunSafe(l: Limits, events: seq<Event>)
    ensures Safe(Run(l, events), l)
    decreases |events|
  {
    if events != [] {
      RunSafe(l, events[..|events| - 1]);
      StepSafe(Run(l, events[..|events| - 1]), l, events[|events| - 1]);
    }
  }

  lemma PhaseCounts(s: State, t: Tenant)
    ensures |Members(s, t)| == |In(s, t, Waiting)| + |In(s, t, Running)| + |In(s, t, Leaving)|
  {
    var w, r, v := In(s, t, Waiting), In(s, t, Running), In(s, t, Leaving);
    assert Members(s, t) == w + r + v;
    assert w !! r && w + r !! v;
  }

  /** Over every interleaving: no more in flight than the queue limit, and no more running than the
      concurrency limit. */
  lemma LimitsHold(l: Limits, events: seq<Event>, t: Tenant)
    requires t in Run(l, events).quotas
    ensures var s := Run(l, events);
      && s.quotas[t].queued == |In(s, t, Waiting)| + |In(s, t, Running)| + |In(s, t, Leaving)|
      && (|Members(s, t)| <= l.queue || Members(s, t) == {})
      && |In(s, t, Running)| <= l.concurrent
      && s.quotas[t].free + |In(s, t, Running)| == l.concurrent
  {
    RunSafe(l, events);
    assert Balanced(Run(l, events), l, t);
    PhaseCounts(Run(l, events), t);
  }

  /** Over every interleaving the clamp of the counter never fires. */
  lemma ClampIdle(l: Limits, events: seq<Event>, id: Ticket)
    requires InPhase(Run(l, events), id, Leaving)
    ensures var queued := QuotaOf(Run(l, events), id).queued; Clamp(queued - 1) == queued - 1
  {
    RunSafe(l, events);
    LeaveSafe(Run(l, events), l, id);
  }

  /** Once all requests of a tenant have left, whichever way each of them ended, all it took is back. */
  lemma EverythingReturned(l: Limits, events: seq<Event>, t: Tenant)
    requires t in Run(l, events).quotas && Members(Run(l, events), t) == {}
    ensures Run(l, events).quotas[t] == NewQuota(l)
  {
    var s := Run(l, events);
    RunSafe(l, events);
    assert Balanced(s, l, t);
    assert In(s, t, Running) <= Members(s, t);
  }

  /** A request is turned away exactly when as many are in flight as the queue limit admits. */
  lemma TurnedAwayExactly(l: Limits, events: seq<Event>, t: Tenant)
    ensures TurnedAway(Run(l, events), l, t) <==> |Members(Run(l, events), t)| >= l.queue
  {
    var s := Run(l, events);
    RunSafe(l, events);
    if t in s.quotas {
      assert Balanced(s, l, t);
    } else {
      assert Members(s, t) == {};
    }
  }

  /** A waiting request is only held up by running ones. */
  lemma NoIdlePermit(l: Limits, events: seq<Event>, id: Ticket)
    requires InPhase(Run(l, events), id, Waiting) && !Enabled(Run(l, events), Acquire(id))
    ensures |In(Run(l, events), Run(l, events).live[id].tenant, Running)| == l.concurrent
  {
    RunSafe(l, events);
    assert Balanced(Run(l, events), l, Run(l, events).live[id].tenant);
  }

  /** The tenant an event belongs to. */
  predicate Concerns(s: State, e: Event, t: Tenant) {
    match e
    case Enter(_, u) => u == t
    case _ => e.id in s.live && s.live[e.id].tenant == t
  }

  /** No step touches the quota or the requests of another tenant. */
  lemma Isolation(s: State, l: Limits, e: Event, t: Tenant)
    requires !Concerns(s, e, t)
    ensures var s' := Step(s, l, e);
      && (t in s'.quotas <==> t in s.quotas) && (t in s.quotas ==> s'.quotas[t] == s.quotas[t])
      && Members(s', t) == Members(s, t)
      && forall id | id in Members(s, t) :: s'.live[id] == s.live[id]
  {
  }

  // ---- What one request takes and gives back ----

  /** Entering takes a place in the queue. */
  lemma EnterTakes(s: State, l: Limits, id: Ticket, t: Tenant)
    requires id !in s.live && !TurnedAway(s, l, t)
    ensures var before, after := WithQuota(s, l, t).quotas[t], Step(s, l, Enter(id, t));
      && t in after.quotas && after.quotas[t].queued == before.queued + 1 && after.quotas[t].free == before.free
      && after.live == s.live[id := Request(t, Waiting)]
  {
  }

  /** A request that is turned away takes nothing. */
  lemma TurnedAwayTakesNothing(s: State, l: Limits, id: Ticket, t: Tenant)
    requires id !in s.live && TurnedAway(s, l, t)
    ensures Step(s, l, Enter(id, t)) == WithQuota(s, l, t) && Step(s, l, Enter(id, t)).live == s.live
  {
  }

  /** Acquiring takes a permit and keeps the place. */
  lemma AcquireTakes(s: State, l: Limits, id: Ticket)
    requires InPhase(s, id, Waiting) && QuotaOf(s, id).free > 0
    ensures var t, after := s.live[id].tenant, Step(s, l, Acquire(id));
      && after.live == s.live[id := Request(t, Running)]
      && after.quotas[t].free == s.quotas[t].free - 1 && after.quotas[t].queued == s.quotas[t].queued
  {
  }

  /** Giving up takes nothing more and gives nothing back yet. */
  lemma GiveUpTakesNothing(s: State, l: Limits, id: Ticket, timedOut: bool)
    requires InPhase(s, id, Waiting)
    ensures var t, after := s.live[id].tenant, Step(s, l, GiveUp(id, timedOut));
      after.live == s.live[id := Request(t, Leaving)] && after.quotas == s.quotas
  {
    assert s.quotas[s.live[id].tenant := s.quotas[s.live[id].tenant]] == s.quotas;
  }

  /** Finishing, in whichever way, gives the permit back and keeps the place. */
  lemma FinishReturns(s: State, l: Limits, id: Ticket, how: Outcome)
    requires InPhase(s, id, Running)
    ensures var t, after := s.live[id].tenant, Step(s, l, Finish(id, how));
      && after.live == s.live[id := Request(t, Leaving)]
      && after.quotas[t].free == s.quotas[t].free + 1 && after.quotas[t].queued == s.quotas[t].queued
      && after.quotas.Keys == s.quotas.Keys
  {
  }

  /** Leaving gives the place back. */
  lemma LeaveReturns(s: State, l: Limits, id: Ticket)
    requires Safe(s, l) && InPhase(s, id, Leaving)
    ensures var t, after := s.live[id].tenant, Step(s, l, Leave(id));
      && id !in after.live && after.live == s.live - {id}
      && after.quotas[t].queued == s.quotas[t].queued - 1 && after.quotas[t].free == s.quotas[t].free
  {
    LeaveSafe(s, l, id);
  }

  function After(l: Limits, s: State, events: seq<Event>): State
    decreases |events|
  {
    if events == [] then s else After(l, Step(s, l, events[0]), events[1..])
  }

  /** The state with one tenant's quota and one request replaced. */
  function With(s: State, t: Tenant, q: Quota, id: Ticket, p: Phase): State {
    State(s.quotas[t := q], s.live[id := Request(t, p)])
  }

  lemma WithTwice(s: State, t: Tenant, q: Quota, id: Ticket, p: Phase, r: Quota, o: Phase)
    ensures With(With(s, t, q, id, p), t, r, id, o) == With(s, t, r, id, o)
  {
  }

  /** The states a request goes through, alone. */
  lemma Stages(s: State, l: Limits, id: Ticket, t: Tenant, q: Quota, how: Outcome, timedOut: bool)
    ensures q.free > 0 ==>
      Step(With(s, t, q, id, Waiting), l, Acquire(id)) == With(s, t, q.(free := q.free - 1), id, Running)
    ensures Step(With(s, t, q, id, Waiting), l, GiveUp(id, timedOut)) == With(s, t, q, id, Leaving)
    ensures Step(With(s, t, q, id, Running), l, Finish(id, how)) == With(s, t, q.(free := q.free + 1), id, Leaving)
  {
    WithTwice(s, t, q, id, Waiting, q.(free := q.free - 1), Running);
    WithTwice(s, t, q, id, Waiting, q, Leaving);
    WithTwice(s, t, q, id, Running, q.(free := q.free + 1), Leaving);
  }

  lemma EntersAs(s: State, l: Limits, id: Ticket, t: Tenant)
    requires t in s.quotas && id !in s.live && !TurnedAway(s, l, t)
    ensures Step(s, l, Enter(id, t)) == With(s, t, s.quotas[t].(queued := s.quotas[t].queued + 1), id, Waiting)
  {
  }

  lemma LeavesAs(s: State, l: Limits, id: Ticket, t: Tenant)
    requires t in s.quotas && id !in s.live && s.quotas[t].queued >= 0
    ensures Step(With(s, t, s.quotas[t].(queued := s.quotas[t].queued + 1), id, Leaving), l, Leave(id)) == s
  {
    var q := s.quotas[t];
    var leaving := With(s, t, q.(queued := q.queued + 1), id, Leaving);
    assert leaving.live - {id} == s.live;
    assert q.(queued := q.queued) == q && leaving.quotas[t := q] == s.quotas;
  }

  /** A request that runs leaves the tenant's quota and the requests as it found them. */
  lemma RunsAndLeaves(l: Limits, s: State, id: Ticket, t: Tenant, how: Outcome)
    requires Safe(s, l) && t in s.quotas && id !in s.live && !TurnedAway(s, l, t) && s.quotas[t].free > 0
    ensures After(l, s, [Enter(id, t), Acquire(id), Finish(id, how), Leave(id)]) == s
  {
    var q := s.quotas[t].(queued := s.quotas[t].queued + 1);
    assert Balanced(s, l, t);
    EntersAs(s, l, id, t);
    Stages(s, l, id, t, q, how, false);
    Stages(s, l, id, t, q.(free := q.free - 1), how, false);
    assert q.(free := q.free - 1).(free := q.free) == q;
    LeavesAs(s, l, id, t);
    FourSteps(l, s, Enter(id, t), Acquire(id), Finish(id, how), Leave(id));
  }

  /** So does a request that gives up. */
  lemma GivesUpAndLeaves(l: Limits, s: State, id: Ticket, t: Tenant, timedOut: bool)
    requires Safe(s, l) && t in s.quotas && id !in s.live && !TurnedAway(s, l, t)
    ensures After(l, s, [Enter(id, t), GiveUp(id, timedOut), Leave(id)]) == s
  {
    assert Balanced(s, l, t);
    EntersAs(s, l, id, t);
    Stages(s, l, id, t, s.quotas[t].(queued := s.quotas[t].queued + 1), Success, timedOut);
    LeavesAs(s, l, id, t);
    ThreeSteps(l, s, Enter(id, t), GiveUp(id, timedOut), Leave(id));
  }

  lemma TwoSteps(l: Limits, s: State, a: Event, b: Event)
    ensures After(l, s, [a, b]) == Step(Step(s, l, a), l, b)
  {
    assert [a, b][1..] == [b] && [b][1..] == [];
    assert After(l, Step(s, l, a), [b]) == After(l, Step(Step(s, l, a), l, b), []);
  }

  lemma ThreeSteps(l: Limits, s: State, a: Event, b: Event, c: Event)
    ensures After(l, s, [a, b, c]) == Step(Step(Step(s, l, a), l, b), l, c)
  {
    assert [a, b, c][1..] == [b, c];
    TwoSteps(l, Step(s, l, a), b, c);
  }

  lemma FourSteps(l: Limits, s: State, a: Event, b: Event, c: Event, d: Event)
    ensures After(l, s, [a, b, c, d]) == Step(Step(Step(Step(s, l, a), l, b), l, c), l, d)
  {
    assert [a, b, c, d][1..] == [b, c, d];
    ThreeSteps(l, Step(s, l, a), b, c, d);
  }

  // ---- A tenant can always be drained ----

  /** What takes a request out from where it is. */
  function Exit(s: State, id: Ticket): seq<Event>
    requires id in s.live
  {
    match s.live[id].phase
    case Waiting => [GiveUp(id, true), Leave(id)]
    case Running => [Finish(id, Cancelled), Leave(id)]
    case Leaving => [Leave(id)]
  }

  lemma ExitLeaves(l: Limits, s: State, id: Ticket)
    requires Safe(s, l) && id in s.live
    ensures Safe(After(l, s, Exit(s, id)), l)
    ensures After(l, s, Exit(s, id)).live == s.live - {id} && After(l, s, Exit(s, id)).quotas.Keys == s.quotas.Keys
  {
    match s.live[id].phase
    case Waiting =>
      GiveUpTakesNothing(s, l, id, true);
      ThenLeaves(l, s, id, GiveUp(id, true));
    case Running =>
      FinishReturns(s, l, id, Cancelled);
      ThenLeaves(l, s, id, Finish(id, Cancelled));
    case Leaving =>
      assert [Leave(id)][1..] == [] && After(l, s, [Leave(id)]) == After(l, Step(s, l, Leave(id)), []);
      StepSafe(s, l, Leave(id));
      LeaveReturns(s, l, id);
  }

  lemma ThenLeaves(l: Limits, s: State, id: Ticket, e: Event)
    requires Safe(s, l) && id in s.live && Step(s, l, e).live == s.live[id := Request(s.live[id].tenant, Leaving)]
    requires Step(s, l, e).quotas.Keys == s.quotas.Keys
    ensures Safe(After(l, s, [e, Leave(id)]), l)
    ensures After(l, s, [e, Leave(id)]).live == s.live - {id}
    ensures After(l, s, [e, Leave(id)]).quotas.Keys == s.quotas.Keys
  {
    StepSafe(s, l, e);
    LastLeaves(l, Step(s, l, e), id);
    TwoSteps(l, s, e, Leave(id));
    PutThenDropped(s.live, id, Request(s.live[id].tenant, Leaving));
  }

  lemma LastLeaves(l: Limits, s: State, id: Ticket)
    requires Safe(s, l) && InPhase(s, id, Leaving)
    ensures var after := Step(s, l, Leave(id));
      Safe(after, l) && after.live == s.live - {id} && after.quotas.Keys == s.quotas.Keys
  {
    StepSafe(s, l, Leave(id));
    LeaveReturns(s, l, id);
  }

  lemma PutThenDropped(live: map<Ticket, Request>, id: Ticket, r: Request)
    ensures live[id := r] - {id} == live - {id}
  {
  }

  lemma {:induction false} AfterAppend(l: Limits, s: State, a: seq<Event>, b: seq<Event>)
    ensures After(l, s, a + b) == After(l, After(l, s, a), b)
    decreases |a|
  {
    if a == [] {
      assert a + b == b;
    } else {
      assert (a + b)[1..] == a[1..] + b;
      AfterAppend(l, Step(s, l, a[0]), a[1..], b);
    }
  }

  /** From every safe state, steps of the requests in flight lead to a state without any of the tenant's, and then
      the tenant's quota is as new. */
  lemma {:induction false} Drained(l: Limits, s: State, t: Tenant) returns (events: seq<Event>)
    requires Safe(s, l) && t in s.quotas
    ensures var after := After(l, s, events);
      Safe(after, l) && Members(after, t) == {} && t in after.quotas && after.quotas[t] == NewQuota(l)
    decreases |Members(s, t)|
  {
    if Members(s, t) == {} {
      events := [];
      assert Balanced(s, l, t) && In(s, t, Running) <= Members(s, t);
    } else {
      var id :| id in Members(s, t);
      var out := Exit(s, id);
      ExitLeaves(l, s, id);
      var s' := After(l, s, out);
      assert Members(s', t) == Members(s, t) - {id};
      var rest := Drained(l, s', t);
      events := out + rest;
      AfterAppend(l, s, out, rest);
    }
  }

  // ---- The gateway ----

  /** The quota object of a tenant: a semaphore value, its limits and the counter. */
  class TenantQuota {
    var free: int
    var queued: int
    const maxConcurrent: int
    const queueLimit: int

    constructor (concurrent: int, queue: int)
      ensures Value() == Quota(concurrent, concurrent, queue, 0)
    {
      free, maxConcurrent, queueLimit, queued := concurrent, concurrent, queue, 0;
    }

    function Value(): Quota
      reads this
    {
      Quota(free, maxConcurrent, queueLimit, queued)
    }
  }

  class GovernedQueryGateway {
    const limits: Limits
    var tenantQuotas: map<Tenant, TenantQuota>
    ghost var live: map<Ticket, Request>

    /** Tenants do not share a quota object. */
    ghost predicate Valid()
      reads this
    {
      && (forall t, u | t in tenantQuotas && u in tenantQuotas && t != u :: tenantQuotas[t] != tenantQuotas[u])
      && forall id | id in live :: live[id].tenant in tenantQuotas
    }

    ghost function Objects(): set<object>
      reads this
    {
      set t | t in tenantQuotas :: tenantQuotas[t]
    }

    ghost function Current(): State
      reads this, Objects()
    {
      State(map t | t in tenantQuotas :: tenantQuotas[t].Value(), live)
    }

    constructor (limits: Limits)
      ensures Valid() && Current() == START && this.limits == limits && Objects() == {}
    {
      this.limits, tenantQuotas, live := limits, map[], map[];
    }

    method GetTenantQuota(t: Tenant) returns (quota: TenantQuota)
      requires Valid()
      modifies this
      ensures Valid() && live == old(live) && fresh(Objects() - old(Objects()))
      ensures t in tenantQuotas && tenantQuotas[t] == quota
      ensures Current() == WithQuota(old(Current()), limits, t)
    {
      if t !in tenantQuotas {
        var created := new TenantQuota(limits.concurrent, limits.queue);
        tenantQuotas := tenantQuotas[t := created];
      }
      quota := tenantQuotas[t];
    }

    method EnterQueue(ghost id: Ticket, t: Tenant) returns (admitted: bool)
      requires Valid() && id !in live
      modifies this, Objects()
      ensures Valid() && fresh(Objects() - old(Objects()))
      ensures admitted == !TurnedAway(old(Current()), limits, t)
      ensures t in tenantQuotas
      ensures live == if admitted then old(live)[id := Request(t, Waiting)] else old(live)
      ensures Current() == Step(old(Current()), limits, Enter(id, t))
    {
      var quota := GetTenantQuota(t);
      ghost var found := Current();
      assert found.quotas[t] == quota.Value();
      if quota.queued >= quota.queueLimit {
        return false;
      }
      quota.queued := quota.queued + 1;
      live := live[id := Request(t, Waiting)];
      assert Current() == Admit(found, id, t);
      return true;
    }

    /** `semaphore.acquire()`, once it can proceed. */
    method AcquireSemaphore(ghost id: Ticket, t: Tenant)
      requires Valid() && id in live && live[id] == Request(t, Waiting) && Enabled(Current(), Acquire(id))
      modifies this`live, Objects()
      ensures Valid() && Objects() == old(Objects())
      ensures live == old(live)[id := Request(t, Running)]
      ensures tenantQuotas[t].free == old(tenantQuotas[t].free) - 1
      ensures tenantQuotas[t].queued == old(tenantQuotas[t].queued)
      ensures Current() == Step(old(Current()), limits, Acquire(id))
    {
      var quota := tenantQuotas[t];
      quota.free := quota.free - 1;
      live := live[id := Request(t, Running)];
    }

    /** The first statement of the `finally`. */
    method ReleaseSemaphore(ghost id: Ticket, t: Tenant, semaphoreAcquired: bool, ghost how: Outcome,
                            ghost timedOut: bool)
      requires Valid() && id in live && live[id] == Request(t, if semaphoreAcquired then Running else Waiting)
      modifies this`live, Objects()
      ensures Valid() && Objects() == old(Objects())
      ensures live == old(live)[id := Request(t, Leaving)] && tenantQuotas[t].queued == old(tenantQuotas[t].queued)
      ensures tenantQuotas[t].free == old(tenantQuotas[t].free) + if semaphoreAcquired then 1 else 0
      ensures Current()
           == Step(old(Current()), limits, if semaphoreAcquired then Finish(id, how) else GiveUp(id, timedOut))
    {
      if semaphoreAcquired {
        var quota := tenantQuotas[t];
        quota.free := quota.free + 1;
      }
      live := live[id := Request(t, Leaving)];
    }

    /** The second: under the lock, the counter goes down. */
    method LeaveQueue(ghost id: Ticket, t: Tenant)
      requires Valid() && id in live && live[id] == Request(t, Leaving)
      modifies this`live, Objects()
      ensures Valid() && Objects() == old(Objects())
      ensures live == old(live) - {id} && tenantQuotas[t].free == old(tenantQuotas[t].free)
      ensures old(tenantQuotas[t].queued) > 0 ==> tenantQuotas[t].queued == old(tenantQuotas[t].queued) - 1
      ensures old(tenantQuotas[t].queued) <= 0 ==> tenantQuotas[t].queued == 0
      ensures Current() == Step(old(Current()), limits, Leave(id))
    {
      var quota := tenantQuotas[t];
      quota.queued := if quota.queued - 1 < 0 then 0 else quota.queued - 1;
      live := live - {id};
    }
  }
}
