/**
 * The subscription effect of the wash-trading context provider
 * (src/wash/contexts/useWashTrading.tsx, the `useEffect` body): each run creates
 * fresh `onCompleted` and `onFailed` closures over the current refetch hooks,
 * registers each under its event kind, and hands back a cleanup that removes
 * exactly those two references.
 */
module WashTrading {
  import opened LiFiTypes
  import opened Reporting
  import opened EventBus

  /** The two closures one run of the effect registered; its cleanup removes them. */
  datatype Subscription = Subscription(onCompleted: Handler, onFailed: Handler)

  /** The effect body: create both handlers and register one per terminal event kind. */
  method Subscribe(widgetEvents: WidgetEvents, hooks: Refetchers) returns (sub: Subscription)
    requires widgetEvents.Valid()
    modifies widgetEvents
    ensures widgetEvents.Valid()
    ensures fresh(sub.onCompleted) && fresh(sub.onFailed) && sub.onCompleted != sub.onFailed
    ensures sub.onCompleted.role == ReportCompleted && sub.onCompleted.hooks == hooks
    ensures sub.onFailed.role == ReportFailed && sub.onFailed.hooks == hooks
    ensures widgetEvents.Listeners(RouteExecutionCompleted)
         == old(widgetEvents.Listeners(RouteExecutionCompleted)) + [sub.onCompleted]
    ensures widgetEvents.Listeners(RouteExecutionFailed)
         == old(widgetEvents.Listeners(RouteExecutionFailed)) + [sub.onFailed]
    ensures forall k :: k != RouteExecutionCompleted && k != RouteExecutionFailed ==>
      widgetEvents.Listeners(k) == old(widgetEvents.Listeners(k))
  {
    var onCompleted := new Handler(ReportCompleted, hooks);
    var onFailed := new Handler(ReportFailed, hooks);
    widgetEvents.On(RouteExecutionCompleted, onCompleted);
    widgetEvents.On(RouteExecutionFailed, onFailed);
    sub := Subscription(onCompleted, onFailed);
  }

  /** The cleanup: `off` each kind's own handler, and nothing else. */
  method Unsubscribe(widgetEvents: WidgetEvents, sub: Subscription)
    requires widgetEvents.Valid()
    modifies widgetEvents
    ensures widgetEvents.Valid()
    ensures widgetEvents.Listeners(RouteExecutionCompleted)
         == RemoveFirst(old(widgetEvents.Listeners(RouteExecutionCompleted)), sub.onCompleted)
    ensures widgetEvents.Listeners(RouteExecutionFailed)
         == RemoveFirst(old(widgetEvents.Listeners(RouteExecutionFailed)), sub.onFailed)
    ensures forall k :: k != RouteExecutionCompleted && k != RouteExecutionFailed ==>
      widgetEvents.Listeners(k) == old(widgetEvents.Listeners(k))
  {
    widgetEvents.Off(RouteExecutionCompleted, sub.onCompleted);
    widgetEvents.Off(RouteExecutionFailed, sub.onFailed);
  }

  /**
   * Mounting, then some other listener being registered (another consumer's, or
   * a second provider's reporting handler), then unmounting: the bus ends as it
   * was plus that other listener. The cleanup removes exactly the two references
   * the mount registered.
   */
  method MountThenUnmount(widgetEvents: WidgetEvents, hooks: Refetchers, kind: EventKind, other: Handler)
    requires widgetEvents.Valid() && Compatible(other.role, kind)
    modifies widgetEvents
    ensures widgetEvents.Valid()
    ensures widgetEvents.Listeners(kind) == old(widgetEvents.Listeners(kind)) + [other]
    ensures forall k :: k != kind ==> widgetEvents.Listeners(k) == old(widgetEvents.Listeners(k))
  {
    ghost var completed := widgetEvents.Listeners(RouteExecutionCompleted);
    ghost var failed := widgetEvents.Listeners(RouteExecutionFailed);
    ghost var own := widgetEvents.Listeners(kind);
    var sub := Subscribe(widgetEvents, hooks);
    assert sub.onCompleted !in completed && sub.onFailed !in failed;
    widgetEvents.On(kind, other);
    Unsubscribe(widgetEvents, sub);
    var tailC: seq<Handler> := if kind == RouteExecutionCompleted then [other] else [];
    var tailF: seq<Handler> := if kind == RouteExecutionFailed then [other] else [];
    RemoveFirstOfAppended(completed, sub.onCompleted, tailC);
    RemoveFirstOfAppended(failed, sub.onFailed, tailF);
    assert completed + [sub.onCompleted] + [] == completed + [sub.onCompleted];
    assert failed + [sub.onFailed] + [] == failed + [sub.onFailed];
  }

  /** The handler a subscription registered for events of kind `kind`. */
  function OwnHandler(sub: Subscription, kind: EventKind): Handler {
    if kind == RouteExecutionCompleted then sub.onCompleted else sub.onFailed
  }

  /**
   * Mounting on a bus where no other reporter listens, then emitting a
   * qualifying event: its report is POSTed exactly once.
   */
  method MountAndEmit(widgetEvents: WidgetEvents, hooks: Refetchers, e: Event, outcome: PostOutcome, log: EffectLog)
    returns (sub: Subscription)
    requires widgetEvents.Valid() && Truthy(EventTxHash(e))
    requires forall h :: h in widgetEvents.Listeners(KindOf(e)) ==> h.role == OtherConsumer
    modifies widgetEvents, log
    ensures widgetEvents.Valid()
    ensures fresh(sub.onCompleted) && fresh(sub.onFailed) && sub.onCompleted != sub.onFailed
    ensures sub.onCompleted.role == ReportCompleted && sub.onCompleted.hooks == hooks
    ensures sub.onFailed.role == ReportFailed && sub.onFailed.hooks == hooks
    ensures widgetEvents.Listeners(RouteExecutionCompleted)
         == old(widgetEvents.Listeners(RouteExecutionCompleted)) + [sub.onCompleted]
    ensures widgetEvents.Listeners(RouteExecutionFailed)
         == old(widgetEvents.Listeners(RouteExecutionFailed)) + [sub.onFailed]
    ensures forall k :: k != RouteExecutionCompleted && k != RouteExecutionFailed ==>
      widgetEvents.Listeners(k) == old(widgetEvents.Listeners(k))
    ensures Posts(log.entries) == Posts(old(log.entries)) + [WashRequest(EventRoute(e), EventTxHash(e).value)]
  {
    var kind := KindOf(e);
    ghost var before := widgetEvents.Listeners(kind);
    sub := Subscribe(widgetEvents, hooks);
    var mine := OwnHandler(sub, kind);
    assert mine.role != OtherConsumer && Compatible(mine.role, kind);
    ghost var mounted := widgetEvents.Listeners(kind);
    assert mounted == before + [mine];
    widgetEvents.Emit(e, outcome, log);
    OneReporterOnePost(before, mine, e, outcome);
    PostsAppend(old(log.entries), Dispatch(mounted, e, outcome));
  }

  /**
   * Unmounting, then emitting again: the mount's handler is removed wherever it
   * sits among other consumers' listeners, even ones registered after it, and
   * the event is not POSTed.
   */
  method UnmountAndEmit(widgetEvents: WidgetEvents, sub: Subscription, ghost before: seq<Handler>,
                        ghost after: seq<Handler>, e: Event, outcome: PostOutcome, log: EffectLog)
    requires widgetEvents.Valid()
    requires OwnHandler(sub, KindOf(e)) !in before
    requires forall h :: h in before + after ==> h.role == OtherConsumer
    requires widgetEvents.Listeners(KindOf(e)) == before + [OwnHandler(sub, KindOf(e))] + after
    modifies widgetEvents, log
    ensures widgetEvents.Valid()
    ensures widgetEvents.Listeners(KindOf(e)) == before + after
    ensures widgetEvents.Listeners(RouteExecutionCompleted)
         == RemoveFirst(old(widgetEvents.Listeners(RouteExecutionCompleted)), sub.onCompleted)
    ensures widgetEvents.Listeners(RouteExecutionFailed)
         == RemoveFirst(old(widgetEvents.Listeners(RouteExecutionFailed)), sub.onFailed)
    ensures forall k :: k != RouteExecutionCompleted && k != RouteExecutionFailed ==>
      widgetEvents.Listeners(k) == old(widgetEvents.Listeners(k))
    ensures Posts(log.entries) == Posts(old(log.entries))
  {
    var kind := KindOf(e);
    Unsubscribe(widgetEvents, sub);
    RemoveFirstOfAppended(before, OwnHandler(sub, kind), after);
    widgetEvents.Emit(e, outcome, log);
    NoReportersNoPosts(before + after, e, outcome);
    PostsAppend(old(log.entries), Dispatch(before + after, e, outcome));
    assert Posts(old(log.entries)) + [] == Posts(old(log.entries));
  }

  /**
   * On a bus where no other reporter listens, a qualifying event emitted while
   * mounted is POSTed exactly once; emitted again after unmounting, it is not
   * POSTed at all, and the bus is back to what it was.
   */
  method ReportWhileMounted(widgetEvents: WidgetEvents, hooks: Refetchers, e: Event, outcome: PostOutcome, log: EffectLog)
    requires widgetEvents.Valid() && Truthy(EventTxHash(e))
    requires forall h :: h in widgetEvents.Listeners(KindOf(e)) ==> h.role == OtherConsumer
    modifies widgetEvents, log
    ensures widgetEvents.Valid()
    ensures forall k :: widgetEvents.Listeners(k) == old(widgetEvents.Listeners(k))
    ensures Posts(log.entries) == Posts(old(log.entries)) + [WashRequest(EventRoute(e), EventTxHash(e).value)]
  {
    ghost var before := widgetEvents.Listeners(KindOf(e));
    ghost var completed := widgetEvents.Listeners(RouteExecutionCompleted);
    ghost var failed := widgetEvents.Listeners(RouteExecutionFailed);
    var sub := MountAndEmit(widgetEvents, hooks, e, outcome, log);
    assert before + [OwnHandler(sub, KindOf(e))] + [] == before + [OwnHandler(sub, KindOf(e))];
    assert before + [] == before;
    UnmountAndEmit(widgetEvents, sub, before, [], e, outcome, log);
    RemoveFirstOfAppended(completed, sub.onCompleted, []);
    RemoveFirstOfAppended(failed, sub.onFailed, []);
    assert completed + [sub.onCompleted] + [] == completed + [sub.onCompleted];
    assert failed + [sub.onFailed] + [] == failed + [sub.onFailed];
  }

  /** With one reporting handler among other consumers, a qualifying event is POSTed exactly once. */
  lemma OneReporterOnePost(others: seq<Handler>, mine: Handler, e: Event, outcome: PostOutcome)
    requires forall h :: h in others ==> h.role == OtherConsumer
    requires mine.role != OtherConsumer && Compatible(mine.role, KindOf(e))
    requires Truthy(EventTxHash(e))
    ensures AllCompatible(others + [mine], KindOf(e))
    ensures Posts(Dispatch(others + [mine], e, outcome)) == [WashRequest(EventRoute(e), EventTxHash(e).value)]
  {
    var hs := others + [mine];
    assert hs[..|others|] == others;
    NoReportersCount(others);
    DispatchPosts(hs, e, outcome);
  }
}
