/** The session store of `auth/session_store.py`: Redis with a time to live, or a dict that expires on
    read. Both must answer every read as a plain map with absolute expiry times would. */
module SessionStore {
  import opened Wrappers

  datatype Session = Session(user: string, accessToken: string, csrfToken: string, expiresAt: real)

  /** A Redis value with the time at which Redis drops it. */
  datatype Entry = Entry(value: Session, expiry: real)

  datatype Store = Store(redis: map<string, Entry>, sessions: map<string, Session>)

  const EMPTY := Store(map[], map[])

  function RedisKey(id: string): string {
    "gateway:session:" + id
  }

  /** Redis: GET, SETEX and DEL. */
  function RedisGet(redis: map<string, Entry>, key: string, now: real): Option<Session> {
    if key in redis && now < redis[key].expiry then Some(redis[key].value) else None
  }

  /** `delay` is how long after the expiry time was computed SETEX takes effect. */
  datatype Op =
    | Create(id: string, user: string, accessToken: string, csrfToken: string, ttl: nat, delay: real)
    | Get(session: Option<string>)
    | Revoke(session: Option<string>)

  datatype Timed = Timed(op: Op, now: real)

  function Present(id: Option<string>): bool {
    id.Some? && id.value != ""
  }

  function NewSession(op: Op, now: real): Session
    requires op.Create?
  {
    Session(op.user, op.accessToken, op.csrfToken, now + op.ttl as real)
  }

  function Step(useRedis: bool, s: Store, t: Timed): (Store, Option<Session>) {
    var now := t.now;
    match t.op
    case Create(id, _, _, _, ttl, delay) =>
      var payload := NewSession(t.op, now);
      (if useRedis then s.(redis := s.redis[RedisKey(id) := Entry(payload, now + delay + ttl as real)])
       else s.(sessions := s.sessions[id := payload]), None)
    case Get(session) =>
      if !Present(session) then (s, None)
      else if useRedis then
        var raw := RedisGet(s.redis, RedisKey(session.value), now);
        if raw.None? then (s, None)
        else if raw.value.expiresAt <= now then (s.(redis := s.redis - {RedisKey(session.value)}), None)
        else (s, raw)
      else if session.value !in s.sessions || s.sessions[session.value].expiresAt <= now then
        (s.(sessions := s.sessions - {session.value}), None)
      else (s, Some(s.sessions[session.value]))
    case Revoke(session) =>
      if !Present(session) then (s, None)
      else
        var s' := if useRedis then s.(redis := s.redis - {RedisKey(session.value)}) else s;
        (s'.(sessions := s'.sessions - {session.value}), None)
  }

  class SessionBackend {
    const useRedis: bool
    var redis: map<string, Entry>
    var sessions: map<string, Session>

    function Current(): Store
      reads this
    {
      Store(redis, sessions)
    }

    constructor (useRedis: bool)
      ensures Current() == EMPTY && this.useRedis == useRedis
    {
      this.useRedis, redis, sessions := useRedis, map[], map[];
    }

    method CreateSession(sessionId: string, user: string, accessToken: string, csrfToken: string, ttl: nat, now: real,
                         delay: real)
      modifies this
      ensures Current()
           == Step(useRedis, old(Current()), Timed(Create(sessionId, user, accessToken, csrfToken, ttl, delay), now)).0
    {
      var payload := Session(user, accessToken, csrfToken, now + ttl as real);
      if useRedis {
        redis := redis[RedisKey(sessionId) := Entry(payload, now + delay + ttl as real)];
      } else {
        sessions := sessions[sessionId := payload];
      }
    }

    method GetSession(session: Option<string>, now: real) returns (found: Option<Session>)
      modifies this
      ensures (Current(), found) == Step(useRedis, old(Current()), Timed(Get(session), now))
    {
      if session.None? || session.value == "" {
        return None;
      }
      if useRedis {
        var raw := RedisGet(redis, RedisKey(session.value), now);
        if raw.None? {
          return None;
        }
        if raw.value.expiresAt <= now {
          redis := redis - {RedisKey(session.value)};
          return None;
        }
        return raw;
      }
      if session.value !in sessions || sessions[session.value].expiresAt <= now {
        sessions := sessions - {session.value};
        return None;
      }
      return Some(sessions[session.value]);
    }

    method RevokeSession(session: Option<string>, now: real)
      modifies this
      ensures Current() == Step(useRedis, old(Current()), Timed(Revoke(session), now)).0
    {
      if session.None? || session.value == "" {
        return;
      }
      if useRedis {
        redis := redis - {RedisKey(session.value)};
      }
      sessions := sessions - {session.value};
    }
  }

  // ---- The simple store ----

  type Sessions = map<string, Session>

  /** A map with absolute expiry times, from which reads delete nothing. */
  function SimpleStep(m: Sessions, t: Timed): (Sessions, Option<Session>) {
    match t.op
    case Create(id, _, _, _, _, _) => (m[id := NewSession(t.op, t.now)], None)
    case Get(session) => (m, if Present(session) then Valid(m, session.value, t.now) else None)
    case Revoke(session) => (if Present(session) then m - {session.value} else m, None)
  }

  function Valid(m: Sessions, id: string, now: real): Option<Session> {
    if id in m && now < m[id].expiresAt then Some(m[id]) else None
  }

  /** What a read of the store would find. */
  function Visible(useRedis: bool, s: Store, id: string, now: real): Option<Session> {
    if useRedis then
      var raw := RedisGet(s.redis, RedisKey(id), now);
      if raw.Some? && now < raw.value.expiresAt then raw else None
    else Valid(s.sessions, id, now)
  }

  function Outputs(useRedis: bool, ops: seq<Timed>): (seq<Option<Session>>, Store) {
    if ops == [] then ([], EMPTY)
    else
      var (outs, s) := Outputs(useRedis, ops[..|ops| - 1]);
      var (s', out) := Step(useRedis, s, ops[|ops| - 1]);
      (outs + [out], s')
  }

  function SimpleOutputs(ops: seq<Timed>): (seq<Option<Session>>, Sessions) {
    if ops == [] then ([], map[])
    else
      var (outs, m) := SimpleOutputs(ops[..|ops| - 1]);
      var (m', out) := SimpleStep(m, ops[|ops| - 1]);
      (outs + [out], m')
  }

  /** Time does not run backwards, a message to Redis does not arrive before it is sent, and a time to live
      is positive, as SETEX demands. */
  predicate Timely(ops: seq<Timed>) {
    && (forall i, j | 0 <= i <= j < |ops| :: ops[i].now <= ops[j].now)
    && forall i | 0 <= i < |ops| :: ops[i].op.Create? ==> ops[i].op.delay >= 0.0 && ops[i].op.ttl > 0
  }

  /** From some time on, the store and the simple map show the same sessions. */
  ghost predicate Agree(useRedis: bool, s: Store, m: Sessions, since: real) {
    forall id, t | since <= t :: Visible(useRedis, s, id, t) == Valid(m, id, t)
  }

  lemma RedisKeysDiffer(a: string, b: string)
    requires RedisKey(a) == RedisKey(b)
    ensures a == b
  {
    var n := |"gateway:session:"|;
    assert RedisKey(a)[n..] == a && RedisKey(b)[n..] == b;
  }

  /** One operation: the same answer, and agreement from its time on. */
  lemma StepAgrees(useRedis: bool, s: Store, m: Sessions, since: real, t: Timed)
    requires Agree(useRedis, s, m, since) && since <= t.now && (t.op.Create? ==> t.op.delay >= 0.0)
    ensures Step(useRedis, s, t).1 == SimpleStep(m, t).1
    ensures Agree(useRedis, Step(useRedis, s, t).0, SimpleStep(m, t).0, t.now)
  {
    var s', m' := Step(useRedis, s, t).0, SimpleStep(m, t).0;
    if t.op.Get? && Present(t.op.session) {
      assert Visible(useRedis, s, t.op.session.value, t.now) == Valid(m, t.op.session.value, t.now);
    }
    forall id, later | t.now <= later ensures Visible(useRedis, s', id, later) == Valid(m', id, later) {
      assert Visible(useRedis, s, id, later) == Valid(m, id, later);
      var touched := if t.op.Create? then t.op.id else if Present(t.op.session) then t.op.session.value else id;
      if RedisKey(touched) == RedisKey(id) {
        RedisKeysDiffer(touched, id);
      }
    }
  }

  /** Over every run of creations, reads and revocations, both backends answer as the simple map does. */
  lemma {:induction false} BackendsRefineMap(useRedis: bool, ops: seq<Timed>)
    requires Timely(ops)
    ensures Outputs(useRedis, ops).0 == SimpleOutputs(ops).0
    ensures Agree(useRedis, Outputs(useRedis, ops).1, SimpleOutputs(ops).1,
                  if ops == [] then 0.0 else ops[|ops| - 1].now)
    decreases |ops|
  {
    if ops != [] {
      var init, last := ops[..|ops| - 1], ops[|ops| - 1];
      BackendsRefineMap(useRedis, init);
      var s, m := Outputs(useRedis, init).1, SimpleOutputs(init).1;
      if init == [] {
        assert Agree(useRedis, s, m, last.now);
      }
      StepAgrees(useRedis, s, m, if init == [] then last.now else init[|init| - 1].now, last);
    }
  }

  /** The two backends cannot be told apart. */
  lemma BackendsAgree(ops: seq<Timed>)
    requires Timely(ops)
    ensures Outputs(true, ops).0 == Outputs(false, ops).0
  {
    BackendsRefineMap(true, ops);
    BackendsRefineMap(false, ops);
  }

  // ---- Revoked and expired sessions ----

  predicate NeverCreated(ops: seq<Timed>, id: string) {
    forall t | t in ops :: t.op.Create? ==> t.op.id != id
  }

  lemma {:induction false} GoneStaysGone(before: seq<Timed>, after: seq<Timed>, id: string, since: real)
    requires Valid(SimpleOutputs(before).1, id, since) == None && NeverCreated(after, id)
    ensures forall later | since <= later :: Valid(SimpleOutputs(before + after).1, id, later) == None
    decreases |after|
  {
    if after == [] {
      assert before + after == before;
    } else {
      var init := after[..|after| - 1];
      GoneStaysGone(before, init, id, since);
      var last := after[|after| - 1];
      assert (before + after)[..|before + after| - 1] == before + init;
      assert (before + after)[|before + after| - 1] == last;
      assert last in after;
      var m := SimpleOutputs(before + init).1;
      assert SimpleOutputs(before + after).1 == SimpleStep(m, last).0;
      forall later | since <= later ensures Valid(SimpleStep(m, last).0, id, later) == None {
        assert Valid(m, id, later) == None;
      }
    }
  }

  /** A revoked or expired id is never returned again by either backend, unless it is created anew. */
  lemma NeverReturnedAgain(useRedis: bool, before: seq<Timed>, after: seq<Timed>, id: string, now: real)
    requires Timely(before + after + [Timed(Get(Some(id)), now)]) && NeverCreated(after, id) && before != []
    requires before[|before| - 1].op
         == Revoke(Some(id)) || Valid(SimpleOutputs(before).1, id, before[|before| - 1].now) == None
    ensures Step(useRedis, Outputs(useRedis, before + after).1, Timed(Get(Some(id)), now)).1 == None
  {
    var ops, read := before + after, Timed(Get(Some(id)), now);
    assert (ops + [read])[..|ops|] == ops;
    var since := before[|before| - 1].now;
    assert (ops + [read])[|before| - 1] == before[|before| - 1] && (ops + [read])[|ops|] == read;
    if id != "" {
      GoneStaysGone(before, after, id, since);
      BackendsRefineMap(useRedis, ops + [read]);
      assert Valid(SimpleOutputs(ops).1, id, now) == None;
      var outs, simple := Outputs(useRedis, ops + [read]).0, SimpleOutputs(ops + [read]).0;
      assert outs[|outs| - 1] == Step(useRedis, Outputs(useRedis, ops).1, read).1;
      assert simple[|simple| - 1] == SimpleStep(SimpleOutputs(ops).1, read).1;
    }
  }

  // ---- A session's life ----

  /** Neither created anew nor revoked. */
  predicate LeftAlone(ops: seq<Timed>, id: string) {
    NeverCreated(ops, id) && forall t | t in ops :: t.op != Revoke(Some(id))
  }

  lemma {:induction false} Remembered(before: seq<Timed>, after: seq<Timed>, id: string)
    requires id in SimpleOutputs(before).1 && LeftAlone(after, id)
    ensures id in SimpleOutputs(before + after).1 && SimpleOutputs(before + after).1[id] == SimpleOutputs(before).1[id]
    decreases |after|
  {
    if after == [] {
      assert before + after == before;
    } else {
      var init, last := after[..|after| - 1], after[|after| - 1];
      Remembered(before, init, id);
      assert (before + after)[..|before + after| - 1] == before + init;
      assert (before + after)[|before + after| - 1] == last && last in after;
    }
  }

  lemma LastAnswer(useRedis: bool, ops: seq<Timed>, id: string, now: real)
    requires Timely(ops + [Timed(Get(Some(id)), now)]) && id != ""
    ensures Step(useRedis, Outputs(useRedis, ops).1, Timed(Get(Some(id)), now)).1
         == Valid(SimpleOutputs(ops).1, id, now)
  {
    var all := ops + [Timed(Get(Some(id)), now)];
    assert all[..|all| - 1] == ops;
    BackendsRefineMap(useRedis, all);
    assert Outputs(useRedis, all).0[|all| - 1] == SimpleOutputs(all).0[|all| - 1] by {
      OneAnswerEach(useRedis, all);
    }
    OneAnswerEach(useRedis, ops);
  }

  lemma {:induction false} OneAnswerEach(useRedis: bool, ops: seq<Timed>)
    ensures |Outputs(useRedis, ops).0| == |ops| == |SimpleOutputs(ops).0|
    decreases |ops|
  {
    if ops != [] {
      OneAnswerEach(useRedis, ops[..|ops| - 1]);
    }
  }

  /** On either backend and after any other traffic, a session that is left alone is read back as it was created
      before its time to live has passed, and not at all from then on. */
  lemma ReadBack(useRedis: bool, before: seq<Timed>, id: string, user: string, accessToken: string, csrfToken: string,
                 ttl: nat, delay: real, created: real, after: seq<Timed>, now: real)
    requires id != "" && LeftAlone(after, id)
    requires Timely(before + [Timed(Create(id, user, accessToken, csrfToken, ttl, delay), created)] + after
                    + [Timed(Get(Some(id)), now)])
    ensures var ops := before + [Timed(Create(id, user, accessToken, csrfToken, ttl, delay), created)] + after;
      var expiresAt := created + ttl as real;
      Step(useRedis, Outputs(useRedis, ops).1, Timed(Get(Some(id)), now)).1
        == if now < expiresAt then Some(Session(user, accessToken, csrfToken, expiresAt)) else None
  {
    var creation := Timed(Create(id, user, accessToken, csrfToken, ttl, delay), created);
    assert (before + [creation])[..|before|] == before;
    Remembered(before + [creation], after, id);
    LastAnswer(useRedis, before + [creation] + after, id, now);
  }

  /** After a revocation it is not read until it is created anew. */
  lemma RevokedIsGone(useRedis: bool, before: seq<Timed>, id: string, revoked: real, after: seq<Timed>, now: real)
    requires id != "" && NeverCreated(after, id)
    requires Timely(before + [Timed(Revoke(Some(id)), revoked)] + after + [Timed(Get(Some(id)), now)])
    ensures Step(useRedis, Outputs(useRedis, before + [Timed(Revoke(Some(id)), revoked)] + after).1,
                 Timed(Get(Some(id)), now)).1 == None
  {
    NeverReturnedAgain(useRedis, before + [Timed(Revoke(Some(id)), revoked)], after, id, now);
  }
}
