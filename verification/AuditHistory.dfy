/** What the chain of `AuditChain` records: every context's head stands for the payloads that lead to it, across
    forks, restarts and resets. */
module AuditHistory {
  import opened AuditChain

  lemma RunNext(h: Hash, ops: seq<Op>, op: Op)
    ensures Run(h, ops + [op]) == Step(h, Run(h, ops), op)
  {
    assert (ops + [op])[..|ops|] == ops;
  }

  lemma RunLonger(h: Hash, before: seq<Op>, ops: seq<Op>)
    requires ops != []
    ensures Run(h, before + ops) == Step(h, Run(h, before + ops[..|ops| - 1]), ops[|ops| - 1])
  {
    assert before + ops == (before + ops[..|ops| - 1]) + [ops[|ops| - 1]];
    RunNext(h, before + ops[..|ops| - 1], ops[|ops| - 1]);
  }

  // ---- One event after another ----

  /** The operation sets the head of the context. */
  predicate Moves(s: State, op: Op, ctx: Context) {
    match op
    case Log(c, _) => c == ctx
    case Fork(_, child) => child == ctx
    case Restart(c, _) => c == ctx
    case Reset(token) => token in s.saved && s.saved[token].0 == ctx
  }

  /** No operation sets the head of the context. */
  ghost predicate Quiet(h: Hash, before: seq<Op>, ops: seq<Op>, ctx: Context) {
    forall i | 0 <= i < |ops| :: !Moves(Run(h, before + ops[..i]), ops[i], ctx)
  }

  lemma StillKeeps(h: Hash, s: State, op: Op, ctx: Context)
    requires !Moves(s, op, ctx)
    ensures Head(Step(h, s, op), ctx) == Head(s, ctx) && s.log <= Step(h, s, op).log
  {
  }

  lemma {:induction false} QuietKeeps(h: Hash, before: seq<Op>, ops: seq<Op>, ctx: Context)
    requires Quiet(h, before, ops, ctx)
    ensures Head(Run(h, before + ops), ctx) == Head(Run(h, before), ctx)
    ensures Run(h, before).log <= Run(h, before + ops).log
    decreases |ops|
  {
    if ops == [] {
      assert before + ops == before;
    } else {
      var n := |ops| - 1;
      QuietBefore(h, before, ops, ctx);
      QuietKeeps(h, before, ops[..n], ctx);
      RunLonger(h, before, ops);
      StillKeeps(h, Run(h, before + ops[..n]), ops[n], ctx);
    }
  }

  lemma QuietBefore(h: Hash, before: seq<Op>, ops: seq<Op>, ctx: Context)
    requires Quiet(h, before, ops, ctx) && ops != []
    ensures Quiet(h, before, ops[..|ops| - 1], ctx)
  {
    var init := ops[..|ops| - 1];
    forall i | 0 <= i < |init| ensures !Moves(Run(h, before + init[..i]), init[i], ctx) {
      assert init[..i] == ops[..i];
    }
  }

  /** The event that a payload is logged as. */
  lemma EventLogged(h: Hash, before: seq<Op>, ctx: Context, payload: string)
    ensures var was, now := Run(h, before), Run(h, before + [Log(ctx, payload)]);
      && |now.log| == |was.log| + 1 && now.log[..|was.log|] == was.log
      && now.log[|was.log|].payload == payload
      && now.log[|was.log|].prevAuditHash == Head(was, ctx)
      && now.log[|was.log|].auditHash == h(Head(was, ctx) + payload)
      && Head(now, ctx) == now.log[|was.log|].auditHash
  {
    RunNext(h, before, Log(ctx, payload));
  }

  /** The next event of a context links to the one before it, whatever other contexts do in between. */
  lemma NextLinks(h: Hash, before: seq<Op>, ctx: Context, p: string, between: seq<Op>, q: string)
    requires Quiet(h, before + [Log(ctx, p)], between, ctx)
    ensures var i := |Run(h, before).log|;
      var log := Run(h, before + [Log(ctx, p)] + between + [Log(ctx, q)]).log;
      && i < |log| - 1 && log[i].payload == p && log[|log| - 1].payload == q
      && log[|log| - 1].prevAuditHash == log[i].auditHash && log[|log| - 1].auditHash == h(log[i].auditHash + q)
  {
    var first := before + [Log(ctx, p)];
    EventLogged(h, before, ctx, p);
    QuietKeeps(h, first, between, ctx);
    EventLogged(h, first + between, ctx, q);
  }

  /** The events of a log are the logged payloads, in order: none is lost, added or changed. */
  function Logged(ops: seq<Op>): seq<string> {
    if ops == [] then []
    else
      var last := ops[|ops| - 1];
      Logged(ops[..|ops| - 1]) + if last.Log? then [last.payload] else []
  }

  lemma {:induction false} SinkComplete(h: Hash, ops: seq<Op>)
    ensures var log := Run(h, ops).log;
      |log| == |Logged(ops)| && forall i | 0 <= i < |log| :: log[i].payload == Logged(ops)[i]
    decreases |ops|
  {
    if ops != [] {
      SinkComplete(h, ops[..|ops| - 1]);
    }
  }

  // ---- Forks, restarts and resets ----

  /** The first event of a forked context links to where its parent was, and leaves the parent there. */
  lemma ForkLinks(h: Hash, before: seq<Op>, parent: Context, child: Context, q: string)
    requires parent != child
    ensures var head, forked := Head(Run(h, before), parent), before + [Fork(parent, child)];
      var s := Run(h, forked + [Log(child, q)]);
      && s.log == Run(h, before).log + [Event(q, h(head + q), head)]
      && Head(s, parent) == head && Head(s, child) == h(head + q)
  {
    RunNext(h, before, Fork(parent, child));
    EventLogged(h, before + [Fork(parent, child)], child, q);
    RunNext(h, before + [Fork(parent, child)], Log(child, q));
  }

  lemma {:induction false} SavedStays(h: Hash, before: seq<Op>, ops: seq<Op>, token: Token)
    requires token in Run(h, before).saved && forall op | op in ops && op.Restart? :: op.token != token
    ensures token in Run(h, before + ops).saved && Run(h, before + ops).saved[token] == Run(h, before).saved[token]
    decreases |ops|
  {
    if ops == [] {
      assert before + ops == before;
    } else {
      var n := |ops| - 1;
      SavedStays(h, before, ops[..n], token);
      RunLonger(h, before, ops);
      assert ops[n] in ops;
    }
  }

  /** A restarted chain starts afresh, and resetting it with its own token takes up the old chain again, whatever
      happened in between. */
  lemma ResetUndoesRestart(h: Hash, before: seq<Op>, ctx: Context, token: Token, between: seq<Op>)
    requires forall op | op in between && op.Restart? :: op.token != token
    ensures Head(Run(h, before + [Restart(ctx, token)]), ctx) == ""
    ensures var whole := before + [Restart(ctx, token)] + between + [Reset(token)];
      Head(Run(h, whole), ctx) == Head(Run(h, before), ctx)
  {
    var restarted := before + [Restart(ctx, token)];
    RunNext(h, before, Restart(ctx, token));
    SavedStays(h, restarted, between, token);
    RunNext(h, restarted + between, Reset(token));
  }

  // ---- Histories of payloads ----

  /** The payloads that lead to each context's head, and to each saved one. */
  datatype History = History(chains: map<Context, seq<string>>, saved: map<Token, (Context, seq<string>)>) {
    function Of(ctx: Context): seq<string> {
      if ctx in chains then chains[ctx] else []
    }
  }

  function Remember(past: History, op: Op): History {
    match op
    case Log(ctx, payload) => past.(chains := past.chains[ctx := past.Of(ctx) + [payload]])
    case Fork(parent, child) => past.(chains := past.chains[child := past.Of(parent)])
    case Restart(ctx, token) => History(past.chains[ctx := []], past.saved[token := (ctx, past.Of(ctx))])
    case Reset(token) =>
      if token in past.saved then past.(chains := past.chains[past.saved[token].0 := past.saved[token].1]) else past
  }

  function HistoryOf(ops: seq<Op>): History {
    if ops == [] then History(map[], map[]) else Remember(HistoryOf(ops[..|ops| - 1]), ops[|ops| - 1])
  }

  /** State and history agree: each head is the chain of its payloads. */
  ghost predicate Records(h: Hash, s: State, past: History) {
    && (forall ctx :: Head(s, ctx) == Chain(h, past.Of(ctx)))
    && s.saved.Keys == past.saved.Keys
    && forall t | t in s.saved :: s.saved[t].0 == past.saved[t].0 && s.saved[t].1 == Chain(h, past.saved[t].1)
  }

  lemma ChainNext(h: Hash, payloads: seq<string>, payload: string)
    ensures Chain(h, payloads + [payload]) == h(Chain(h, payloads) + payload)
  {
    assert (payloads + [payload])[..|payloads|] == payloads;
  }

  lemma Recorded(h: Hash, s: State, past: History, op: Op)
    requires Records(h, s, past)
    ensures Records(h, Step(h, s, op), Remember(past, op))
  {
    var s', now := Step(h, s, op), Remember(past, op);
    forall ctx ensures Head(s', ctx) == Chain(h, now.Of(ctx)) {
      assert Head(s, ctx) == Chain(h, past.Of(ctx));
      match op
      case Log(c, payload) => ChainNext(h, past.Of(c), payload);
      case Fork(parent, _) => assert Head(s, parent) == Chain(h, past.Of(parent));
      case Restart(_, _) => assert Chain(h, []) == "";
      case Reset(_) =>
    }
  }

  /** In every run every head is the chain of its context's payloads. */
  lemma {:induction false} HeadsRecord(h: Hash, ops: seq<Op>)
    ensures Records(h, Run(h, ops), HistoryOf(ops))
    decreases |ops|
  {
    if ops == [] {
      assert Chain(h, []) == "";
    } else {
      HeadsRecord(h, ops[..|ops| - 1]);
      Recorded(h, Run(h, ops[..|ops| - 1]), HistoryOf(ops[..|ops| - 1]), ops[|ops| - 1]);
    }
  }

  function Logs(ctx: Context, payloads: seq<string>): seq<Op> {
    seq(|payloads|, i requires 0 <= i < |payloads| => Log(ctx, payloads[i]))
  }

  /** One event of each payload, with the chain so far before it and the chain up to it as its digest. */
  function Links(h: Hash, payloads: seq<string>): seq<Event> {
    seq(|payloads|, i requires 0 <= i < |payloads| =>
      Event(payloads[i], Chain(h, payloads[..i + 1]), Chain(h, payloads[..i])))
  }

  lemma LinksNext(h: Hash, init: seq<string>, last: string)
    ensures Links(h, init + [last]) == Links(h, init) + [Event(last, h(Chain(h, init) + last), Chain(h, init))]
  {
    var payloads := init + [last];
    ChainNext(h, init, last);
    assert payloads[..|init|] == init && payloads[..|init| + 1] == payloads;
    forall i | 0 <= i < |init| ensures Links(h, payloads)[i] == Links(h, init)[i] {
      assert payloads[..i] == init[..i] && payloads[..i + 1] == init[..i + 1];
    }
  }

  /** Logging payloads in a context whose chain is empty adds exactly these events, each linked to the one before it. */
  lemma {:induction false} LogsChain(h: Hash, before: seq<Op>, ctx: Context, payloads: seq<string>)
    requires Head(Run(h, before), ctx) == ""
    ensures Head(Run(h, before + Logs(ctx, payloads)), ctx) == Chain(h, payloads)
    ensures Run(h, before + Logs(ctx, payloads)).log == Run(h, before).log + Links(h, payloads)
    decreases |payloads|
  {
    if payloads == [] {
      assert before + Logs(ctx, payloads) == before;
    } else {
      var n := |payloads| - 1;
      var init, last := payloads[..n], payloads[n];
      LogsChain(h, before, ctx, init);
      assert before + Logs(ctx, payloads) == (before + Logs(ctx, init)) + [Log(ctx, last)];
      RunNext(h, before + Logs(ctx, init), Log(ctx, last));
      assert payloads == init + [last];
      LinksNext(h, init, last);
      ChainNext(h, init, last);
    }
  }

  // ---- Tampering with a run ----

  /** Every payload of a history was logged. */
  lemma {:induction false} HistoryLogged(ops: seq<Op>)
    ensures forall ctx, p | p in HistoryOf(ops).Of(ctx) :: p in Logged(ops)
    ensures forall t, p | t in HistoryOf(ops).saved && p in HistoryOf(ops).saved[t].1 :: p in Logged(ops)
    decreases |ops|
  {
    if ops != [] {
      var past, op := HistoryOf(ops[..|ops| - 1]), ops[|ops| - 1];
      HistoryLogged(ops[..|ops| - 1]);
      forall ctx, p | p in HistoryOf(ops).Of(ctx) ensures p in Logged(ops) {
        match op
        case Log(_, payload) => assert p == payload || p in past.Of(ctx);
        case Fork(parent, _) => assert p in past.Of(ctx) + past.Of(parent);
        case Restart(_, _) => assert p in past.Of(ctx);
        case Reset(token) => assert p in past.Of(ctx) || (token in past.saved && p in past.saved[token].1);
      }
    }
  }

  /** Two runs, with any forks, restarts and resets, that end at one head have the same payloads leading to it, or
      show two inputs with one digest. */
  lemma RunsTamperEvident(h: Hash, ops1: seq<Op>, ctx1: Context, ops2: seq<Op>, ctx2: Context)
    requires HexDigests(h) && (forall p | p in Logged(ops1) + Logged(ops2) :: Serialized(p))
    requires Head(Run(h, ops1), ctx1) == Head(Run(h, ops2), ctx2)
    ensures var a, b := HistoryOf(ops1).Of(ctx1), HistoryOf(ops2).Of(ctx2);
      a == b || (a != [] && b != [] && Divergence(h, a, b).0 != Divergence(h, a, b).1
                 && h(Divergence(h, a, b).0) == h(Divergence(h, a, b).1))
  {
    HeadsRecord(h, ops1);
    HeadsRecord(h, ops2);
    HistoryLogged(ops1);
    HistoryLogged(ops2);
    TamperEvident(h, HistoryOf(ops1).Of(ctx1), HistoryOf(ops2).Of(ctx2));
  }
}
