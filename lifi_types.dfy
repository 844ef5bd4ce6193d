/**
 * The shapes of the routing widget's data that the wash-trading reporter reads:
 * a route with its steps, each step's execution and its processes, and the two
 * terminal route-execution events the reporter listens to.
 *
 * Only the fields the reporter touches are modelled. Optional TypeScript fields
 * (`x?: T`, `T | undefined`) become `Option<T>`.
 */
module LiFiTypes {

  datatype Option<+T> = None | Some(value: T)

  /** A token descriptor, copied unchanged into the report. */
  datatype Token = Token(address: string, symbol: string, decimals: nat, chainId: int)

  /** One execution attempt of a step; it carries a hash once broadcast. */
  datatype Process = Process(txHash: Option<string>)

  /** The execution record of a step: its processes, oldest first. */
  datatype Execution = Execution(process: seq<Process>)

  /** One leg of a route; `execution` is absent until the step has started. */
  datatype Step = Step(execution: Option<Execution>)

  datatype Route = Route(
    id: string,
    fromAddress: Option<string>,
    fromToken: Token,
    fromAmount: string,
    fromAmountUSD: string,
    fromChainId: int,
    toAddress: Option<string>,
    toToken: Token,
    toAmount: string,
    toAmountUSD: string,
    toChainId: int,
    steps: seq<Step>
  )

  /** What a failed execution reports: the route and the process that failed. */
  datatype RouteExecutionUpdate = RouteExecutionUpdate(route: Route, process: Process)

  /** The event kinds of the widget's bus; `Other` stands for every kind the reporter ignores. */
  datatype EventKind = RouteExecutionCompleted | RouteExecutionFailed | Other(name: string)

  /** A terminal route-execution event together with its payload. */
  datatype Event = Completed(route: Route) | Failed(update: RouteExecutionUpdate)

  function KindOf(e: Event): EventKind {
    match e
    case Completed(_) => RouteExecutionCompleted
    case Failed(_) => RouteExecutionFailed
  }
}
