/** The context cache against the history it stands for: what was stored on a
    channel since its contexts were last dropped. */
module ContextHistory {
  import opened Basics
  import opened Channels
  import opened ChannelRuns

  /** The history `h` of channel `c` after one operation from state `s`. */
  function Extended(s: State, op: Op, c: ChannelId, h: seq<Context>): seq<Context> {
    match op
    case SetContextOp(d, ctx) => if d == c && ctx.typ != "" then h + [ctx] else h
    case BroadcastOp(d, ctx, _) => if d == c && d in s.channels && ctx.typ != "" then h + [ctx] else h
    case ClearContextOp(d) => if d == c then [] else h
    case DeleteOp(d) => if d == c && d in s.channels then [] else h
    case DestroyOp(d) => if d == c && d in s.channels then [] else h
    case _ => h
  }

  /** The contexts stored on `c` since it was last cleared, deleted or
      destroyed, oldest first. */
  function History(ops: seq<Op>, c: ChannelId): seq<Context> {
    if ops == [] then []
    else
      var before := ops[..|ops| - 1];
      Extended(Run(before), ops[|ops| - 1], c, History(before, c))
  }

  function LastOf(h: seq<Context>): Option<Context> {
    if h == [] then None else Some(h[|h| - 1])
  }

  function LastOfType(h: seq<Context>, t: string): Option<Context> {
    if h == [] then None
    else if h[|h| - 1].typ == t then Some(h[|h| - 1])
    else LastOfType(h[..|h| - 1], t)
  }

  /** The cache that storing a history one context at a time leaves behind. */
  function Cached(h: seq<Context>): map<string, Context> {
    if h == [] then map[]
    else
      var ctx := h[|h| - 1];
      Cached(h[..|h| - 1])[ctx.typ := ctx][LAST_CONTEXT_KEY := ctx]
  }

  predicate TouchesContexts(op: Op) {
    op.SetContextOp? || op.ClearContextOp? || op.BroadcastOp? || op.DeleteOp? || op.DestroyOp?
  }

  /** Operations on members, invites and listeners never touch the cache. */
  lemma OthersKeepContexts(s: State, op: Op)
    requires !TouchesContexts(op)
    ensures Step(s, op).contexts == s.contexts
  {
    match op
    case JoinOp(i, c) => assert LeaveForSwitch(s, i).contexts == s.contexts;
    case LeaveOp(i) =>
    case _ =>
  }

  lemma StoringExtendsCache(s: State, d: ChannelId, ctx: Context, c: ChannelId, h: seq<Context>)
    requires Contexts(s, c) == Cached(h)
    ensures Contexts(SetContext(s, d, ctx), c) == Cached(if d == c && ctx.typ != "" then h + [ctx] else h)
  {
  }

  lemma DroppingEmptiesCache(s: State, op: Op, c: ChannelId, h: seq<Context>)
    requires Contexts(s, c) == Cached(h)
    requires op.ClearContextOp? || op.DeleteOp? || op.DestroyOp?
    ensures Contexts(Step(s, op), c) == Cached(Extended(s, op, c, h))
  {
    if op.ClearContextOp? || op.channel in s.channels {
      assert Step(s, op).contexts == s.contexts - {op.channel};
    } else {
      assert Step(s, op) == s;
    }
  }

  lemma StepKeepsCache(s: State, op: Op, c: ChannelId, h: seq<Context>)
    requires Contexts(s, c) == Cached(h)
    ensures Contexts(Step(s, op), c) == Cached(Extended(s, op, c, h))
  {
    if op.SetContextOp? {
      StoringExtendsCache(s, op.channel, op.context, c, h);
    } else if op.BroadcastOp? {
      StoringExtendsCache(s, op.channel, op.context, c, h);
    } else if TouchesContexts(op) {
      DroppingEmptiesCache(s, op, c, h);
    } else {
      OthersKeepContexts(s, op);
    }
  }

  lemma {:induction false} CacheIsHistory(ops: seq<Op>, c: ChannelId)
    ensures Contexts(Run(ops), c) == Cached(History(ops, c))
  {
    if ops != [] {
      var before := ops[..|ops| - 1];
      CacheIsHistory(before, c);
      StepKeepsCache(Run(before), ops[|ops| - 1], c, History(before, c));
    }
  }

  lemma {:induction false} CachedLookup(h: seq<Context>, t: string)
    ensures t != LAST_CONTEXT_KEY ==>
              (t in Cached(h) <==> LastOfType(h, t).Some?) &&
              (t in Cached(h) ==> LastOfType(h, t) == Some(Cached(h)[t]))
    ensures LAST_CONTEXT_KEY in Cached(h) <==> h != []
    ensures h != [] ==> Cached(h)[LAST_CONTEXT_KEY] == h[|h| - 1]
  {
    if h != [] {
      CachedLookup(h[..|h| - 1], t);
    }
  }

  lemma {:induction false} LastOfTypeHasType(h: seq<Context>, t: string)
    ensures LastOfType(h, t).Some? ==> LastOfType(h, t).value.typ == t
  {
    if h != [] && h[|h| - 1].typ != t {
      LastOfTypeHasType(h[..|h| - 1], t);
    }
  }

  /** After every run, asking without a type gives the last context stored,
      and asking for a type gives the last one of that type exactly when the
      type is not the reserved key, or nothing was stored, or the last context
      stored happens to have the reserved key as its type. */
  lemma ContextIsLatest(ops: seq<Op>, c: ChannelId, t: string)
    ensures GetContext(Run(ops), c, None) == LastOf(History(ops, c))
    ensures GetContext(Run(ops), c, Some(t)) == LastOfType(History(ops, c), t)
            <==> t != LAST_CONTEXT_KEY || History(ops, c) == []
                 || History(ops, c)[|History(ops, c)| - 1].typ == LAST_CONTEXT_KEY
  {
    var h := History(ops, c);
    CacheIsHistory(ops, c);
    CachedLookup(h, t);
    LastOfTypeHasType(h, t);
  }
}
