# Wash-trading route reporting, modelled in Dafny

The wash-trading feature of the bridge/swap front end listens to the routing
widget's event bus. When a route execution completes or fails, it reports the
route to the backend with one `POST /api/wash`, and once that request has
resolved it refreshes two pieces of cached state, the NFT status and the item
inventory, through their optional `refetch` callbacks. The listeners are
registered when the context provider mounts and removed when it unmounts.

This project models that logic from `src/wash/contexts/useWashTrading.tsx`:

- `lifi_types.dfy` (module `LiFiTypes`): the widget's data as the reporter reads it.
  This covers a route, its steps, each step's optional execution with its processes,
  a process's optional transaction hash, and the two terminal events.
- `reporting.dfy` (module `Reporting`): what one handler does with one event.
  It extracts the hash (`CompletedTxHash`, `FailedTxHash`), decides on JavaScript
  truthiness (`Truthy`), builds the flat report (`ToPayload`, `WashRequest`) and
  produces the effects it issues, in order (`Effects`, `Reaction`).
- `event_bus.dfy` (module `EventBus`): the bus as classes.
  A `Handler` is an object, because closures are removed by reference.
  `WidgetEvents` keeps a map from event kind to its handler list, with `On`, `Off`
  and `Emit`. An `EffectLog` records the POSTs and refetches that happen.
  `Dispatch` is the function that specifies `Emit`.
- `wash_trading.dfy` (module `WashTrading`): the `useEffect` body (`Subscribe`) and
  its cleanup (`Unsubscribe`). It also holds client methods for mounting,
  reporting and unmounting.

The handlers' effects are values. `Post(request)` carries the path, the method,
the content type and the payload. `RefetchNft` and `RefetchItems` stand for the
two optional refetch calls. Whether the awaited `fetch` resolved or rejected is
a parameter (`PostOutcome`). Whether `nft.refetch` and `items.refetch` are
defined is a parameter (`Refetchers`), captured by the handlers when they are
created.

The bus belongs to the widget library, whose code is not part of this model.
Its behaviour here is that of the `mitt` emitter the widget exposes:
- `on` appends the handler to its kind's list.
- `off` removes the first occurrence of that reference, and does nothing if the
  reference is absent.
- emitting calls the kind's handlers in registration order.
A listener on the bus is either one of the two reporting handlers (of this
provider, or of another mounted provider) or a listener of some other consumer
of the bus, whose role is `OtherConsumer`. What an `OtherConsumer` listener does
is outside the model.

A rejected `fetch` ends a handler at its `await` (lines 98 and 138), so no
refetch runs after it; `Effects` takes the outcome as a parameter for that
reason. `fetch` rejects only on a network failure: an HTTP error status
resolves, and the refetches then run. Both refetches sit inside the
`if (txHash)` block (lines 97-119 and 137-159), so they run only when a report
was sent.

## Model

| member | source | states |
|---|---|---|
| `Reporting.Truthy` | src/wash/contexts/useWashTrading.tsx:137 | The `if (txHash)` test on a hash that may be undefined: it is defined and not the empty string. `Effects` states what each side of it leads to. |
| `Reporting.FailedTxHash` | src/wash/contexts/useWashTrading.tsx:96 | The failed handler's hash is the failing process's own `txHash`. `FailedIgnoresSteps` and `ReporterReaction` state its properties. |
| `Reporting.ToPayload` | src/wash/contexts/useWashTrading.tsx:143-156 | The report for a route and a hash. `PayloadFields` states it field by field, and `PayloadDeterminedByReportedFields` states that it keeps exactly the reported fields. |
| `Reporting.WashRequest` | src/wash/contexts/useWashTrading.tsx:98-116 | The request is a `POST` to `/api/wash` with content type `application/json`, and its body names the route's id and the hash. |
| `Reporting.Reaction` | src/wash/contexts/useWashTrading.tsx:93-160 | Picks the handler by role: `onCompleted` reads the hash from the route's steps, `onFailed` from the failing process, and another consumer adds no effect. `ReporterReaction` states the common rule. |
| `Reporting.CompletedTxHash` | src/wash/contexts/useWashTrading.tsx:124-135 | A completed route has a hash exactly when there is a first step, it has an execution, that execution has a first process, and that process has a hash. The hash is then that process's hash. |
| `Reporting.CompletedWithoutProcessIsSilent` | src/wash/contexts/useWashTrading.tsx:124-137 | No steps, a first step without execution, or an execution without processes gives no hash and no effects at all. |
| `Reporting.StepLessRouteIsNotReported` | src/wash/contexts/useWashTrading.tsx:125-137 | The empty-steps scenario: a completed route with an empty step list causes no POST. It follows from `CompletedWithoutProcessIsSilent`. |
| `Reporting.FailedIgnoresSteps` | src/wash/contexts/useWashTrading.tsx:94-97 | The failed handler's effects do not depend on the route's steps, because its hash is the failing process's own. |
| `Reporting.Effects` | src/wash/contexts/useWashTrading.tsx:137-159 | A falsy hash (absent or empty) gives no effects. A truthy hash gives the report POST first, and no later effect is a POST. |
| `Reporting.RefetchesFollowResolvedPost` | src/wash/contexts/useWashTrading.tsx:137-158 | Each refetch happens once if the hash is truthy, the POST resolved and that refetch is defined, and never otherwise. No refetch is first. The NFT refetch comes before the items refetch. |
| `Reporting.EffectsPosts` | src/wash/contexts/useWashTrading.tsx:137-157 | The POSTs a handler issues are exactly one `POST /api/wash` with the report for a truthy hash, and none otherwise. |
| `Reporting.PayloadFields` | src/wash/contexts/useWashTrading.tsx:143-156 | The body carries the route id and the hash. The chain ids are renamed to `fromChainID`/`toChainID`. Every other from/to field is copied unchanged. |
| `Reporting.PayloadDeterminedByReportedFields` | src/wash/contexts/useWashTrading.tsx:103-116 | Two bodies are equal exactly when the hashes are equal and the routes agree on every reported field. |
| `Reporting.ReporterReaction` | src/wash/contexts/useWashTrading.tsx:94-160 | Both reporting handlers follow one rule: the effects for the event's hash and the event's route. |
| `Reporting.SameReportFromBothHandlers` | src/wash/contexts/useWashTrading.tsx:94-160 | For the same route and hash, the completed and failed handlers issue identical effects, including identical bodies. |
| `Reporting.CompletedRouteIsReported` | src/wash/contexts/useWashTrading.tsx:122-157 | Route `r1` with one process hashed `0xabc` causes exactly one POST, the report for `r1` and `0xabc`. It goes to `/api/wash` with id `r1`, hash `0xabc`, and chain ids 1 and 10. |
| `EventBus.Handler.Handle` | src/wash/contexts/useWashTrading.tsx:94-160 | Running a handler appends exactly its `Reaction` to the effect log, in order. |
| `EventBus.RemoveFirst` | src/wash/contexts/useWashTrading.tsx:166-167 | Removing an absent reference changes nothing. Removing a present one shortens the list by exactly one. |
| `EventBus.RemoveFirstSubset` | src/wash/contexts/useWashTrading.tsx:166-167 | Removal never introduces a listener that was not registered before. |
| `EventBus.RemoveFirstMultiset` | src/wash/contexts/useWashTrading.tsx:166-167 | Removal deletes exactly one occurrence of the reference and no other listener. |
| `EventBus.RemoveFirstOfAppended` | src/wash/contexts/useWashTrading.tsx:162-168 | Removing a reference appended after listeners that do not contain it restores those listeners. Anything registered after it is kept, in order. |
| `EventBus.DispatchPosts` | src/wash/contexts/useWashTrading.tsx:93-163 | Emitting an event causes one POST per registered reporting handler when its hash is truthy, and none otherwise. Each POST carries the event's route and hash. |
| `EventBus.NoReportersNoPosts` | src/wash/contexts/useWashTrading.tsx:165-168 | With no reporting handler registered for its kind, an event causes no POST. |
| `EventBus.WidgetEvents.On` | src/wash/contexts/useWashTrading.tsx:162-163 | `on` appends the handler to its kind's list and leaves every other kind unchanged. |
| `EventBus.WidgetEvents.Off` | src/wash/contexts/useWashTrading.tsx:166-167 | `off` removes the first occurrence of that reference from its kind's list only. |
| `EventBus.WidgetEvents.Emit` | src/wash/contexts/useWashTrading.tsx:162-163 | Emitting runs every handler of the event's kind in registration order. The log grows by `Dispatch` of those handlers. |
| `WashTrading.Subscribe` | src/wash/contexts/useWashTrading.tsx:93-163 | The effect creates two fresh, distinct handlers over the current hooks. It appends one to the completed list and one to the failed list, and no other kind changes. |
| `WashTrading.Unsubscribe` | src/wash/contexts/useWashTrading.tsx:165-168 | The cleanup removes exactly those two references, each from its own kind, and no other kind changes. |
| `WashTrading.MountThenUnmount` | src/wash/contexts/useWashTrading.tsx:162-168 | Mounting, then any other compatible listener being registered (another consumer's or a second provider's reporting handler), then unmounting leaves every kind's list as it was, plus that listener on its kind. |
| `WashTrading.OneReporterOnePost` | src/wash/contexts/useWashTrading.tsx:162-163 | With one reporting handler among other consumers, a qualifying event is POSTed exactly once, with its report. |
| `WashTrading.MountAndEmit` | src/wash/contexts/useWashTrading.tsx:93-163 | Mounting appends two fresh handlers over the current hooks, one to each terminal kind, and leaves every other kind unchanged. If no other reporter listens, a qualifying event is then POSTed exactly once. |
| `WashTrading.UnmountAndEmit` | src/wash/contexts/useWashTrading.tsx:165-168 | Unmounting removes exactly the mount's two references, each from its own kind, wherever they sit among other listeners. Listeners registered after them are kept, in order, and every other kind is unchanged. The event is then not POSTed. |
| `WashTrading.ReportWhileMounted` | src/wash/contexts/useWashTrading.tsx:93-169 | Over a mount, emit, unmount and emit sequence, the event is POSTed exactly once, and every kind's list ends as it was before. |

## Left out

- The HTTP request is not performed. JSON encoding, headers beyond the content type, and the response are not modelled; the POST is an effect that carries its request. `JSON.stringify` drops an undefined `fromAddress`/`toAddress`; the model keeps them as `None`.
- `console.warn` logging (lines 95 and 123) has no behavioural content.
- Asynchrony: each handler is run to completion before the next one starts. The interleaving of overlapping handlers and of the unawaited `Promise.all` of the refetches with later events is not modelled, and neither are the refetch results.
- Re-running the effect when `widgetEvents`, `nft.refetch` or `items.refetch` change (line 169) is a cleanup followed by a new `Subscribe` with the new hooks. Nothing React-specific is modelled.
- The context's default value and the provider composition (lines 22-89 and 171-181) are static data and rendering.
- The hooks `useGetNFT`, `useGetItems`, `useWash`, `useMint`, `useReveal`, `useGetCollection` and `useGetQuests` are not part of this model. Only whether their `refetch` is defined is kept.
- The widget's `Route`, `LiFiStep`, `Process` and `Token` types are not part of this model. Only the fields the reporter reads or copies are kept, and a token is a small record copied unchanged.
- EventBus.WidgetEvents.Emit: every listener of other consumers returns normally. In `mitt` a listener that throws synchronously stops the emission, so a reporting handler registered after it would not run and nothing would be POSTed. `EventBus.DispatchPosts`, `WashTrading.OneReporterOnePost`, `WashTrading.MountAndEmit` and `WashTrading.ReportWhileMounted` count POSTs under this assumption.
- EventBus.WidgetEvents.Emit: one `PostOutcome` applies to the whole emission. With two reporting handlers on the bus (two mounted providers), their `fetch` calls would settle independently; the model gives them the same outcome. This only affects which refetches run, not the POSTs counted.
- The bus's wildcard (`*`) listeners and the other widget event kinds are not modelled; every other kind is `Other(name)`.
- `src/wash/common/WashProgress.tsx`, `src/wash/common/WashProgressAlert/WashProgressAlert.tsx` and `src/components/PartnerThemeFooterImage.tsx` are presentation only.
