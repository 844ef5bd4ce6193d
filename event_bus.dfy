/**
 * The widget's event bus as the reporter uses it: `on(kind, handler)`,
 * `off(kind, handler)` and the emission of an event to every handler registered
 * for its kind, in registration order. Handlers are compared by reference, as
 * JavaScript compares closures, so a handler is an object; the effects the
 * handlers issue are appended to an effect log standing for the outside world.
 *
 * The bus itself belongs to the widget library, whose source is not part of this
 * model; its semantics here are those of the `mitt` emitter the widget exposes:
 * `on` appends, `off` removes the first occurrence of that reference (and does
 * nothing when it is absent), and emission visits a snapshot of the list.
 */
module EventBus {
  import opened LiFiTypes
  import opened Reporting

  /** The record of every effect issued so far, oldest first. */
  class EffectLog {
    var entries: seq<Effect>

    constructor ()
      ensures entries == []
    {
      entries := [];
    }

    method Record(effect: Effect)
      modifies this
      ensures entries == old(entries) + [effect]
    {
      entries := entries + [effect];
    }
  }

  /**
   * One registered closure. `role` says which function it is, `hooks` which
   * refetch callbacks it captured when it was created.
   */
  class Handler {
    const role: Role
    const hooks: Refetchers

    constructor (role: Role, hooks: Refetchers)
      ensures this.role == role && this.hooks == hooks
    {
      this.role := role;
      this.hooks := hooks;
    }

    /**
     * Runs the handler on one event: a reporting handler computes the hash,
     * and if it is truthy issues the POST and then, once it has resolved, the
     * defined refetches in order.
     */
    method Handle(e: Event, outcome: PostOutcome, log: EffectLog)
      requires Compatible(role, KindOf(e))
      modifies log
      ensures log.entries == old(log.entries) + Reaction(role, hooks, e, outcome)
    {
      if role == OtherConsumer {
        return;
      }
      var txHash: Option<string>;
      var route: Route;
      if role == ReportCompleted {
        txHash, route := CompletedTxHash(e.route), e.route;
      } else {
        txHash, route := FailedTxHash(e.update), e.update.route;
      }
      assert Reaction(role, hooks, e, outcome) == Effects(txHash, route, hooks, outcome);
      if Truthy(txHash) {
        log.Record(Post(WashRequest(route, txHash.value)));
        if outcome == Resolved {
          if hooks.nft {
            log.Record(RefetchNft);
          }
          if hooks.items {
            log.Record(RefetchItems);
          }
        }
      }
    }
  }

  /** Removes the first occurrence of `x`, keeping the others in order. */
  function RemoveFirst<T(==)>(s: seq<T>, x: T): (r: seq<T>)
    ensures x !in s ==> r == s
    ensures x in s ==> |r| == |s| - 1
  {
    if s == [] then []
    else
      assert s == [s[0]] + s[1..];
      if s[0] == x then s[1..] else [s[0]] + RemoveFirst(s[1..], x)
  }

  /** Removing deletes one occurrence of `x` and nothing else. */
  lemma {:induction false} RemoveFirstMultiset<T>(s: seq<T>, x: T)
    ensures multiset(RemoveFirst(s, x)) == multiset(s) - multiset{x}
    decreases |s|
  {
    if s != [] {
      assert s == [s[0]] + s[1..];
      RemoveFirstMultiset(s[1..], x);
    }
  }

  /** Removing never introduces a listener that was not there. */
  lemma RemoveFirstSubset<T>(s: seq<T>, x: T)
    ensures forall y :: y in RemoveFirst(s, x) ==> y in s
  {
    RemoveFirstMultiset(s, x);
    forall y | y in RemoveFirst(s, x)
      ensures y in s
    {
      assert multiset(RemoveFirst(s, x))[y] > 0;
    }
  }

  /**
   * Removing a reference that was appended after `before` deletes exactly it:
   * whatever was registered before or after it stays, in order.
   */
  lemma {:induction false} RemoveFirstOfAppended<T>(before: seq<T>, x: T, after: seq<T>)
    requires x !in before
    ensures RemoveFirst(before + [x] + after, x) == before + after
    decreases |before|
  {
    var s := before + [x] + after;
    if before == [] {
      assert s == [x] + after;
    } else {
      var rest := before[1..] + [x] + after;
      assert s == [before[0]] + rest;
      assert x != before[0] && x !in before[1..];
      RemoveFirstOfAppended(before[1..], x, after);
      assert before + after == [before[0]] + (before[1..] + after);
    }
  }

  /** Every handler of a list may receive events of kind `kind`. */
  predicate AllCompatible(hs: seq<Handler>, kind: EventKind) {
    forall h :: h in hs ==> Compatible(h.role, kind)
  }

  /** The effects of emitting `e` to the handlers `hs`, each run to completion in turn. */
  function Dispatch(hs: seq<Handler>, e: Event, outcome: PostOutcome): seq<Effect>
    requires AllCompatible(hs, KindOf(e))
  {
    if hs == [] then []
    else
      var last := hs[|hs| - 1];
      Dispatch(hs[..|hs| - 1], e, outcome) + Reaction(last.role, last.hooks, e, outcome)
  }

  /** A plain fact about sequences, stated so that `Emit`'s loop proof stays cheap. */
  lemma AppendAssociative<T>(a: seq<T>, b: seq<T>, c: seq<T>)
    ensures (a + b) + c == a + (b + c)
  {
  }

  /** Emitting to one more handler of a list appends that handler's reaction. */
  lemma DispatchStep(hs: seq<Handler>, i: nat, e: Event, outcome: PostOutcome)
    requires AllCompatible(hs, KindOf(e)) && i < |hs|
    ensures AllCompatible(hs[..i], KindOf(e)) && AllCompatible(hs[..i + 1], KindOf(e))
    ensures Compatible(hs[i].role, KindOf(e))
    ensures Dispatch(hs[..i + 1], e, outcome)
         == Dispatch(hs[..i], e, outcome) + Reaction(hs[i].role, hs[i].hooks, e, outcome)
  {
    var done := hs[..i + 1];
    assert done[..i] == hs[..i] && done[i] == hs[i];
    assert hs[i] in hs;
    forall h | h in done ensures h in hs { }
  }

  /** The number of reporting handlers (of either kind) in a list. */
  function Reporters(hs: seq<Handler>): nat {
    if hs == [] then 0
    else Reporters(hs[..|hs| - 1]) + (if hs[|hs| - 1].role == OtherConsumer then 0 else 1)
  }

  /** `n` copies of one request. */
  function Copies(q: Request, n: nat): (rs: seq<Request>)
    ensures |rs| == n
  {
    if n == 0 then [] else Copies(q, n - 1) + [q]
  }

  /** The POSTs that emitting `e` to `hs` causes. */
  function ExpectedPosts(hs: seq<Handler>, e: Event): seq<Request> {
    if Truthy(EventTxHash(e)) then Copies(WashRequest(EventRoute(e), EventTxHash(e).value), Reporters(hs))
    else []
  }

  /**
   * Emitting an event POSTs its report once per reporting handler registered
   * for it when the event's hash is truthy, and not at all otherwise; every
   * POST carries the event's route and hash.
   */
  lemma {:induction false} DispatchPosts(hs: seq<Handler>, e: Event, outcome: PostOutcome)
    requires AllCompatible(hs, KindOf(e))
    ensures Posts(Dispatch(hs, e, outcome)) == ExpectedPosts(hs, e)
    decreases |hs|
  {
    if hs != [] {
      var init, last := hs[..|hs| - 1], hs[|hs| - 1];
      assert AllCompatible(init, KindOf(e)) by {
        forall h | h in init ensures h in hs { }
      }
      var reaction := Reaction(last.role, last.hooks, e, outcome);
      assert Dispatch(hs, e, outcome) == Dispatch(init, e, outcome) + reaction;
      DispatchPosts(init, e, outcome);
      PostsAppend(Dispatch(init, e, outcome), reaction);
      if last.role == OtherConsumer {
        assert Posts(reaction) == [];
        assert ExpectedPosts(init, e) + [] == ExpectedPosts(hs, e);
      } else {
        ReporterReaction(last.role, last.hooks, e, outcome);
        EffectsPosts(EventTxHash(e), EventRoute(e), last.hooks, outcome);
      }
    }
  }

  /** Once no reporting handler is registered for an event's kind, emitting it POSTs nothing. */
  lemma NoReportersNoPosts(hs: seq<Handler>, e: Event, outcome: PostOutcome)
    requires AllCompatible(hs, KindOf(e))
    requires forall h :: h in hs ==> h.role == OtherConsumer
    ensures Posts(Dispatch(hs, e, outcome)) == []
  {
    NoReportersCount(hs);
    DispatchPosts(hs, e, outcome);
  }

  lemma {:induction false} NoReportersCount(hs: seq<Handler>)
    requires forall h :: h in hs ==> h.role == OtherConsumer
    ensures Reporters(hs) == 0
    decreases |hs|
  {
    if hs != [] {
      assert hs[|hs| - 1] in hs;
      assert forall h :: h in hs[..|hs| - 1] ==> h in hs;
      NoReportersCount(hs[..|hs| - 1]);
    }
  }

  /** The bus: for each event kind, its handlers in registration order. */
  class WidgetEvents {
    var all: map<EventKind, seq<Handler>>

    /** Every handler is registered under a kind whose events it can receive. */
    predicate Valid()
      reads this
    {
      forall k :: k in all ==> AllCompatible(all[k], k)
    }

    function Listeners(kind: EventKind): seq<Handler>
      reads this
    {
      if kind in all then all[kind] else []
    }

    constructor ()
      ensures Valid()
      ensures forall k :: Listeners(k) == []
    {
      all := map[];
    }

    method On(kind: EventKind, handler: Handler)
      requires Valid() && Compatible(handler.role, kind)
      modifies this
      ensures Valid()
      ensures all == old(all)[kind := old(Listeners(kind)) + [handler]]
      ensures Listeners(kind) == old(Listeners(kind)) + [handler]
      ensures forall k :: k != kind ==> Listeners(k) == old(Listeners(k))
    {
      all := all[kind := Listeners(kind) + [handler]];
    }

    method Off(kind: EventKind, handler: Handler)
      requires Valid()
      modifies this
      ensures Valid()
      ensures all == if kind in old(all) then old(all)[kind := RemoveFirst(old(all)[kind], handler)] else old(all)
      ensures Listeners(kind) == RemoveFirst(old(Listeners(kind)), handler)
      ensures forall k :: k != kind ==> Listeners(k) == old(Listeners(k))
    {
      if kind in all {
        var remaining := RemoveFirst(all[kind], handler);
        RemoveFirstSubset(all[kind], handler);
        all := all[kind := remaining];
      }
    }

    /** Calls every handler registered for the event's kind, in registration order. */
    method Emit(e: Event, outcome: PostOutcome, log: EffectLog)
      requires Valid()
      modifies log
      ensures log.entries == old(log.entries) + Dispatch(Listeners(KindOf(e)), e, outcome)
    {
      var handlers := Listeners(KindOf(e));
      assert AllCompatible(handlers, KindOf(e));
      var i := 0;
      while i < |handlers|
        invariant 0 <= i <= |handlers|
        invariant log.entries == old(log.entries) + Dispatch(handlers[..i], e, outcome)
      {
        DispatchStep(handlers, i, e, outcome);
        ghost var done := Dispatch(handlers[..i], e, outcome);
        ghost var reaction := Reaction(handlers[i].role, handlers[i].hooks, e, outcome);
        ghost var before := log.entries;
        handlers[i].Handle(e, outcome, log);
        assert log.entries == before + reaction;
        AppendAssociative(old(log.entries), done, reaction);
        i := i + 1;
      }
      assert handlers[..i] == handlers;
    }
  }
}
