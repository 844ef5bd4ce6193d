/**
 * What one of the two wash-trading handlers does with one event
 * (src/wash/contexts/useWashTrading.tsx, `onFailed` and `onCompleted`):
 * find the transaction hash, and if it is truthy POST a report to `/api/wash`
 * and, once the POST has resolved, call the optional NFT and items refetches.
 *
 * The network and the refetch hooks are not run: the handler's observable
 * behaviour is the sequence of effects it issues, and the outcome of the
 * awaited POST is a parameter.
 */
module Reporting {
  import opened LiFiTypes

  const WASH_PATH := "/api/wash"
  const POST_METHOD := "POST"
  const JSON_CONTENT_TYPE := "application/json"

  /** JavaScript truthiness of a `string | undefined`: defined and not empty. */
  predicate Truthy(h: Option<string>) {
    h.Some? && h.value != ""
  }

  /**
   * The hash of a completed route: the first process of the first step, when
   * there is a step, it has an execution, and that execution has a process.
   */
  function CompletedTxHash(route: Route): (h: Option<string>)
    ensures h.Some? <==>
      && |route.steps| > 0
      && route.steps[0].execution.Some?
      && |route.steps[0].execution.value.process| > 0
      && route.steps[0].execution.value.process[0].txHash.Some?
    ensures h.Some? ==> h.value == route.steps[0].execution.value.process[0].txHash.value
  {
    if |route.steps| > 0 then
      match route.steps[0].execution
      case None => None
      case Some(execution) =>
        if |execution.process| > 0 then execution.process[0].txHash else None
    else
      None
  }

  /** The hash of a failed execution: the failing process's own hash. */
  function FailedTxHash(update: RouteExecutionUpdate): Option<string> {
    update.process.txHash
  }

  /** The JSON body sent to the backend: the route's from/to fields, flattened. */
  datatype Payload = Payload(
    id: string,
    txHash: string,
    fromAddress: Option<string>,
    fromToken: Token,
    fromAmount: string,
    fromAmountUSD: string,
    fromChainID: int,
    toAddress: Option<string>,
    toToken: Token,
    toAmount: string,
    toAmountUSD: string,
    toChainID: int
  )

  datatype Request = Request(path: string, httpMethod: string, contentType: string, body: Payload)

  /** The report for a route and its hash; `PayloadFields` states it field by field. */
  function ToPayload(route: Route, txHash: string): Payload {
    Payload(
      route.id, txHash,
      route.fromAddress, route.fromToken, route.fromAmount, route.fromAmountUSD, route.fromChainId,
      route.toAddress, route.toToken, route.toAmount, route.toAmountUSD, route.toChainId)
  }

  /** The request both handlers send: a JSON `POST` to the wash endpoint carrying the report. */
  function WashRequest(route: Route, txHash: string): (q: Request)
    ensures q.path == "/api/wash" && q.httpMethod == "POST" && q.contentType == "application/json"
    ensures q.body.id == route.id && q.body.txHash == txHash
  {
    Request(WASH_PATH, POST_METHOD, JSON_CONTENT_TYPE, ToPayload(route, txHash))
  }

  /** The fields of a route that a report carries; `steps` is not among them. */
  predicate SameReportedFields(a: Route, b: Route) {
    && a.id == b.id
    && a.fromAddress == b.fromAddress && a.fromToken == b.fromToken
    && a.fromAmount == b.fromAmount && a.fromAmountUSD == b.fromAmountUSD
    && a.fromChainId == b.fromChainId
    && a.toAddress == b.toAddress && a.toToken == b.toToken
    && a.toAmount == b.toAmount && a.toAmountUSD == b.toAmountUSD
    && a.toChainId == b.toChainId
  }

  /**
   * Two reports are equal exactly when they carry the same hash and the routes
   * agree on every reported field: nothing is lost and nothing else leaks in.
   */
  lemma PayloadDeterminedByReportedFields(a: Route, ha: string, b: Route, hb: string)
    ensures ToPayload(a, ha) == ToPayload(b, hb) <==> ha == hb && SameReportedFields(a, b)
  {
  }

  /** The chain ids are renamed and every other field is copied unchanged. */
  lemma PayloadFields(route: Route, txHash: string)
    ensures var p := ToPayload(route, txHash);
      && p.id == route.id && p.txHash == txHash
      && p.fromChainID == route.fromChainId && p.toChainID == route.toChainId
      && p.fromAddress == route.fromAddress && p.toAddress == route.toAddress
      && p.fromToken == route.fromToken && p.toToken == route.toToken
      && p.fromAmount == route.fromAmount && p.toAmount == route.toAmount
      && p.fromAmountUSD == route.fromAmountUSD && p.toAmountUSD == route.toAmountUSD
  {
  }

  /** Whether `nft.refetch` and `items.refetch` are defined (both are optional). */
  datatype Refetchers = Refetchers(nft: bool, items: bool)

  /** How the awaited `fetch` settles. */
  datatype PostOutcome = Resolved | Rejected

  datatype Effect = Post(request: Request) | RefetchNft | RefetchItems

  /** The requests among a sequence of effects, in order. */
  function Posts(es: seq<Effect>): (rs: seq<Request>)
    ensures |rs| <= |es|
  {
    if es == [] then []
    else Posts(es[..|es| - 1]) + (if es[|es| - 1].Post? then [es[|es| - 1].request] else [])
  }

  lemma {:induction false} PostsAppend(a: seq<Effect>, b: seq<Effect>)
    ensures Posts(a + b) == Posts(a) + Posts(b)
    decreases |b|
  {
    if b == [] {
      assert a + b == a;
    } else {
      var b' := b[..|b| - 1];
      assert (a + b)[..|a + b| - 1] == a + b';
      PostsAppend(a, b');
    }
  }

  /**
   * The effects of one handler once it holds a candidate hash: nothing unless
   * the hash is truthy; otherwise one POST of the report, then, only if the POST
   * resolved, the NFT refetch and the items refetch, each only if defined.
   */
  function Effects(hash: Option<string>, route: Route, hooks: Refetchers, outcome: PostOutcome): (es: seq<Effect>)
    ensures !Truthy(hash) ==> es == []
    ensures Truthy(hash) ==> 0 < |es| && es[0] == Post(WashRequest(route, hash.value))
    ensures forall i :: 0 < i < |es| ==> !es[i].Post?
  {
    if !Truthy(hash) then []
    else
      var refetches :=
        if outcome == Resolved then
          (if hooks.nft then [RefetchNft] else []) + (if hooks.items then [RefetchItems] else [])
        else [];
      [Post(WashRequest(route, hash.value))] + refetches
  }

  /**
   * The refetches come only after a POST that resolved, each at most once and
   * only if its hook is defined, the NFT refetch before the items refetch.
   */
  lemma RefetchesFollowResolvedPost(hash: Option<string>, route: Route, hooks: Refetchers, outcome: PostOutcome)
    ensures var es := Effects(hash, route, hooks, outcome);
      && multiset(es)[RefetchNft] == (if Truthy(hash) && outcome == Resolved && hooks.nft then 1 else 0)
      && multiset(es)[RefetchItems] == (if Truthy(hash) && outcome == Resolved && hooks.items then 1 else 0)
      && (forall i :: 0 <= i < |es| && !es[i].Post? ==> 0 < i)
      && (forall i, j :: 0 <= i < j < |es| ==> !(es[i] == RefetchItems && es[j] == RefetchNft))
  {
    var es := Effects(hash, route, hooks, outcome);
    if Truthy(hash) {
      var post := Post(WashRequest(route, hash.value));
      if outcome == Rejected {
        assert es == [post];
      } else if hooks.nft && hooks.items {
        assert es == [post, RefetchNft, RefetchItems];
      } else if hooks.nft {
        assert es == [post, RefetchNft];
      } else if hooks.items {
        assert es == [post, RefetchItems];
      } else {
        assert es == [post];
      }
    }
  }

  /** A truthy hash yields exactly one POST, carrying the report; no other hash yields any. */
  lemma {:induction false} EffectsPosts(hash: Option<string>, route: Route, hooks: Refetchers, outcome: PostOutcome)
    ensures Posts(Effects(hash, route, hooks, outcome)) ==
      if Truthy(hash) then [WashRequest(route, hash.value)] else []
  {
    var es := Effects(hash, route, hooks, outcome);
    if Truthy(hash) {
      PostsAppend([es[0]], es[1..]);
      assert [es[0]] + es[1..] == es;
      assert Posts([es[0]]) == Posts([]) + [es[0].request];
      PostsOfPostFree(es[1..]);
    }
  }

  lemma {:induction false} PostsOfPostFree(es: seq<Effect>)
    requires forall i :: 0 <= i < |es| ==> !es[i].Post?
    ensures Posts(es) == []
    decreases |es|
  {
    if es != [] {
      PostsOfPostFree(es[..|es| - 1]);
    }
  }

  /** Who a listener is: one of the two reporting handlers, or another consumer of the bus. */
  datatype Role = ReportCompleted | ReportFailed | OtherConsumer

  /** A listener only ever receives the events of the kind it was registered for. */
  predicate Compatible(role: Role, kind: EventKind) {
    match role
    case ReportCompleted => kind == RouteExecutionCompleted
    case ReportFailed => kind == RouteExecutionFailed
    case OtherConsumer => true
  }

  /**
   * The effects one listener issues for one event: `onCompleted` reads the hash
   * from the route's steps, `onFailed` from the failing process; another
   * consumer's effects are outside this model.
   */
  function Reaction(role: Role, hooks: Refetchers, e: Event, outcome: PostOutcome): seq<Effect>
    requires Compatible(role, KindOf(e))
  {
    match role
    case ReportCompleted => Effects(CompletedTxHash(e.route), e.route, hooks, outcome)
    case ReportFailed => Effects(FailedTxHash(e.update), e.update.route, hooks, outcome)
    case OtherConsumer => []
  }

  function EventRoute(e: Event): Route {
    match e
    case Completed(route) => route
    case Failed(update) => update.route
  }

  /** The hash the matching reporting handler extracts from an event. */
  function EventTxHash(e: Event): Option<string> {
    match e
    case Completed(route) => CompletedTxHash(route)
    case Failed(update) => FailedTxHash(update)
  }

  /** Both reporting handlers follow one rule: extract the event's hash, then report the event's route. */
  lemma ReporterReaction(role: Role, hooks: Refetchers, e: Event, outcome: PostOutcome)
    requires Compatible(role, KindOf(e)) && role != OtherConsumer
    ensures Reaction(role, hooks, e, outcome) == Effects(EventTxHash(e), EventRoute(e), hooks, outcome)
  {
  }

  /**
   * A completed route with no steps, a first step without execution or an
   * execution without processes yields no hash, hence no effects at all.
   */
  lemma CompletedWithoutProcessIsSilent(route: Route, hooks: Refetchers, outcome: PostOutcome)
    requires
      || |route.steps| == 0
      || route.steps[0].execution.None?
      || |route.steps[0].execution.value.process| == 0
    ensures CompletedTxHash(route) == None
    ensures Reaction(ReportCompleted, hooks, Completed(route), outcome) == []
  {
  }

  /** A failed event's hash is the failing process's own: the route's steps are never consulted. */
  lemma FailedIgnoresSteps(update: RouteExecutionUpdate, steps: seq<Step>, hooks: Refetchers, outcome: PostOutcome)
    ensures var other := RouteExecutionUpdate(update.route.(steps := steps), update.process);
      Reaction(ReportFailed, hooks, Failed(other), outcome) == Reaction(ReportFailed, hooks, Failed(update), outcome)
  {
  }

  /** For the same route and the same hash, the two handlers issue identical effects. */
  lemma SameReportFromBothHandlers(route: Route, process: Process, hooks: Refetchers, outcome: PostOutcome)
    requires CompletedTxHash(route) == process.txHash
    ensures Reaction(ReportCompleted, hooks, Completed(route), outcome)
         == Reaction(ReportFailed, hooks, Failed(RouteExecutionUpdate(route, process)), outcome)
  {
  }

  /**
   * A completed route `r1` whose only process carries `0xabc`: one POST to
   * `/api/wash` whose body names `r1`, `0xabc` and the chain ids 1 and 10.
   */
  lemma CompletedRouteIsReported(fromToken: Token, toToken: Token, hooks: Refetchers, outcome: PostOutcome)
    ensures
      var route := Route("r1", Some("0xA"), fromToken, "100", "1", 1, Some("0xB"), toToken, "95", "1", 10,
                         [Step(Some(Execution([Process(Some("0xabc"))])))]);
      var es := Reaction(ReportCompleted, hooks, Completed(route), outcome);
      && Posts(es) == [WashRequest(route, "0xabc")]
      && es[0].Post? && es[0].request.path == "/api/wash"
      && es[0].request.body.id == "r1" && es[0].request.body.txHash == "0xabc"
      && es[0].request.body.fromChainID == 1 && es[0].request.body.toChainID == 10
  {
    var route := Route("r1", Some("0xA"), fromToken, "100", "1", 1, Some("0xB"), toToken, "95", "1", 10,
                       [Step(Some(Execution([Process(Some("0xabc"))])))]);
    EffectsPosts(CompletedTxHash(route), route, hooks, outcome);
  }

  /**
   * The empty-steps scenario: a completed route with no steps at all is not
   * reported, the first case of `CompletedWithoutProcessIsSilent`.
   */
  lemma StepLessRouteIsNotReported(route: Route, hooks: Refetchers, outcome: PostOutcome)
    requires route.steps == []
    ensures Posts(Reaction(ReportCompleted, hooks, Completed(route), outcome)) == []
  {
    CompletedWithoutProcessIsSilent(route, hooks, outcome);
  }
}
