# AdSlot lifecycle model

A Dafny model of the slot component of react-dfp (`js/adslot.js`): one
advertising slot on a page, the page-wide counter that names slots, and the
calls a slot makes to the page coordinator (`DFPManager`) and to the
callbacks its owner supplies.

- `ids.dfy` (module `SlotIds`): the module-level counter `dynamicAdCount`
  as the class `SlotCounter`, the names `"adSlot-<n>"` it hands out, and a
  parser that recovers `n` from a name. `AllocateN` takes `n` names from the
  counter one after the other and is proved to return `Allocated(start, n)`.
  With the parser, this shows that successive names are pairwise distinct.
- `classnames.dfy` (module `ClassNames`): JavaScript `split` and `join` with
  a one-character separator, and the two round trips between them.
- `adslot.dfy` (module `AdSlots`): JavaScript values (`Value`), plain objects
  (`Record = map<string, Value>`, where a missing key reads as `undefined`),
  and the class `AdSlot`. Its `props` and `context` are constants, its
  `state` a field, and it holds references to the shared counter and to a
  `Trace`. The trace is an append-only list of every call the slot makes to
  the coordinator and to owner callbacks. The spread merges (`{...a, ...b}`)
  are map unions, where the right-hand side wins. Each method that makes
  calls is proved to append exactly the call list given by a function
  (`RegistrationCalls`, `UnregistrationCalls`, …). Lemmas about those
  functions state the order, the attach/detach symmetry and the merge
  precedence. The three broadcast handlers are functions from an event to
  the owner calls they make.
- `scenarios.dfy` (module `Scenarios`): whole runs on a fresh page. Two
  dynamic slots are named `adSlot-0` and `adSlot-1`. A slot with
  `{fetchNow: true, slotId: "s1"}` makes six calls in order. An event
  addressed to one slot reaches only that slot's owner. A refresh
  predicate's veto is returned as given.

In these points the model follows the code, which one might expect to
behave otherwise:
- An explicit `slotId` wins only when it is truthy (`props.slotId || …`). An
  empty string leads to a generated name.
- The registration and unregistration records spread the whole state, which
  includes `className`, not just the identity.
- The refresh predicate is not a second argument of `registerSlot`. It is the
  `slotShouldRefresh` key of the one registration record.
- `onSlotRegister` is called only when it is a function. The other
  callbacks are called whenever they are not `undefined`.
- The registration payload's keys are `slotId`, `sizes`, `slotCount` and
  `adElementRef`. `slotCount` is the counter's current value, which is one
  past the number of a freshly generated name.

## Model

| member | source | states |
|---|---|---|
| SlotIds.NatToString | js/adslot.js:81 | the decimal text of the counter is non-empty and made of digits only; it starts with `0` exactly when the number is 0, and then it is the single digit |
| SlotIds.SlotIdName | js/adslot.js:81 | a name is `adSlot-` followed by a non-empty run of digits, with no leading zero unless the number is 0 |
| SlotIds.ParseNat | js/adslot.js:81 | the reference reader of decimal text is defined exactly on non-empty digit strings |
| SlotIds.ParseSlotId | js/adslot.js:81 | a name is read back only if it starts with `adSlot-` and has more after it |
| SlotIds.ParseNatToString | js/adslot.js:81 | reading the printed counter value gives the value back |
| SlotIds.SlotIdRoundTrip | js/adslot.js:80-82 | parsing the name made for `n` gives `n` |
| SlotIds.SlotIdInjective | js/adslot.js:80-82 | two counter values give the same name exactly when they are equal |
| SlotIds.Allocated | js/adslot.js:80-82 | the reference list of names `n` generations from counter value `start` hand out has `n` entries |
| SlotIds.AllocatedDistinct | js/adslot.js:80-82 | entries of that list at different positions differ, and the numbers they carry increase with position |
| SlotIds.AllocateN | js/adslot.js:80-82 | `n` successive counter generations return exactly that list, and the counter goes up by `n` |
| SlotIds.FirstNames | js/adslot.js:6 | a counter that starts at 0 first hands out `adSlot-0`, then `adSlot-1` |
| SlotIds.SlotCounter.constructor | js/adslot.js:6 | the counter starts at 0 |
| SlotIds.SlotCounter.Next | js/adslot.js:80-82 | the result is `adSlot-` followed by the counter's old value, the counter goes up by exactly 1, and the name parses back to the old value |
| ClassNames.Split | js/adslot.js:75 | `split` gives at least one piece, and no piece contains the separator |
| ClassNames.JoinSplit | js/adslot.js:75 | joining the pieces of a split with the same separator gives the original string |
| ClassNames.SplitJoin | js/adslot.js:75 | splitting a join of separator-free pieces gives the pieces back |
| AdSlots.Truthy | js/adslot.js:49-50 | a value is falsy exactly when it is `undefined`, `null`, `false`, `0` or `''`, as JavaScript's logical or treats them |
| AdSlots.IsFunction | js/adslot.js:154 | a value that passes `typeof … === 'function'` is truthy and defined |
| AdSlots.CopyDefined | js/adslot.js:87-89 | the target key is added exactly when the context field is defined, with that field's value; no other key changes, and with an undefined field the object is unchanged |
| AdSlots.ContextProps | js/adslot.js:84-100 | the mapped props use only the four slot-prop names (the rest is in `ContextPropsFields`) |
| AdSlots.ContextPropsFields | js/adslot.js:84-100 | the mapped props have only the four renamed keys, each present exactly when its context field is defined, and each carrying that field's value |
| AdSlots.AdSlot.MapContextToAdSlotProps | js/adslot.js:84-100 | filling the object key by key yields exactly the mapped props above |
| AdSlots.WithDefaults | js/adslot.js:32-34 | `fetchNow` becomes `false` when undefined; every other prop is unchanged |
| AdSlots.AdSlot.constructor | js/adslot.js:36-51 | the state's id is the truthy `slotId` prop or `null`, its class name the truthy `className` prop or `''`, and the slot invariant holds |
| AdSlots.AdSlot.GetSlotId | js/adslot.js:69-71 | a truthy `slotId` prop is the id, otherwise the state's id; the result is truthy exactly when one of the two is |
| AdSlots.AdSlot.GetSlotIdPrecedence | js/adslot.js:69-71 | a truthy `slotId` prop is the id; otherwise the state's id is; under the invariant both agree with the state |
| AdSlots.AdSlot.GenerateSlotId | js/adslot.js:80-82 | the name is made from the counter's old value, and the counter goes up by 1 |
| AdSlots.AdSlot.StateRecord | js/adslot.js:106 | spreading the state contributes exactly `slotId` and `className` |
| AdSlots.AdSlot.RegisterRecord | js/adslot.js:103-108 | the registration record carries the slot's refresh adapter under `slotShouldRefresh` and the state's id under `slotId` (the rest is in `RegisterExtendsUnregister`) |
| AdSlots.AdSlot.UnregisterRecord | js/adslot.js:130-134 | the unregistration record carries the state's id and class name (the rest is in `UnregisterRecordLayers`) |
| AdSlots.AdSlot.RefreshRecord | js/adslot.js:183-187 | the refresh record carries the current id under `slotId` (the rest is in `RefreshRecordLayers`) |
| AdSlots.AdSlot.UnregisterRecordLayers | js/adslot.js:130-134 | in the unregistration record the state's id and class name win, a prop wins over a context field, and every key comes from context, props or state |
| AdSlots.AdSlot.RegisterExtendsUnregister | js/adslot.js:103-108 | the registration record is the unregistration record with the refresh adapter added under `slotShouldRefresh`, and agrees with it on every other key |
| AdSlots.AdSlot.RefreshRecordLayers | js/adslot.js:183-187 | in the refresh record the current id wins, a prop wins over a context field, and every key comes from context, props or the id |
| AdSlots.AdSlot.RegisterPayload | js/adslot.js:155-160 | the `onSlotRegister` argument carries exactly the current id, the `sizes` prop, the counter's current value and the element reference |
| AdSlots.AdSlot.RegisterCallbackCalls | js/adslot.js:153-162 | `onSlotRegister` is invoked, once, exactly when it is a function, with the payload above |
| AdSlots.AdSlot.SlotRegisterCallback | js/adslot.js:153-162 | the method appends exactly those calls to the trace |
| AdSlots.AdSlot.FetchNow | js/adslot.js:109 | a fetch is asked for only when `fetchNow` is truthy, and never when it is undefined; strict comparison with `true` |
| AdSlots.AdSlot.FetchCalls | js/adslot.js:109-111 | at most one call, present exactly when `fetchNow` is `true`, and it is `load` of the slot's id |
| AdSlots.AdSlot.Attachments | js/adslot.js:112-114 | three attachments of this slot's handlers, on three different channels |
| AdSlots.AdSlot.Detachments | js/adslot.js:135-137 | three detachments of this slot's handlers, on three different channels |
| AdSlots.AdSlot.RegistrationCalls | js/adslot.js:102-117 | at least four calls, the first the registration with its record (the order is in `RegistrationOrder`) |
| AdSlots.AdSlot.RegistrationOrder | js/adslot.js:102-117 | registration comes first and only once; `load` of the slot's id follows exactly when `fetchNow` is `true`; then the three attachments in channel order; then the `onSlotRegister` call, if any |
| AdSlots.AdSlot.DoRegisterSlot | js/adslot.js:102-117 | the method appends exactly the registration calls to the trace |
| AdSlots.AdSlot.AttachHandlers | js/adslot.js:112-114 | the three attachments are appended in channel order |
| AdSlots.AdSlot.UnregistrationCalls | js/adslot.js:129-138 | four calls: the unregistration with its record, then the three detachments in channel order |
| AdSlots.AdSlot.UnregisterSlot | js/adslot.js:129-138 | the method appends exactly those four calls |
| AdSlots.AdSlot.DetachHandlers | js/adslot.js:135-137 | the three detachments are appended in channel order |
| AdSlots.AdSlot.ComponentWillUnmount | js/adslot.js:65-67 | unmounting appends exactly the unregistration calls |
| AdSlots.AdSlot.RegistrationHandlers | js/adslot.js:102-117 | a registration attaches this slot's three handlers, in channel order, and unregisters nothing |
| AdSlots.AdSlot.UnregistrationHandlers | js/adslot.js:129-138 | an unregistration detaches this slot's three handlers, in channel order, and unregisters once |
| AdSlots.AdSlot.AttachDetachSymmetry | js/adslot.js:102-138 | unregistering detaches exactly the handlers registering attached, on the same channels, in the same order |
| AdSlots.AdSlot.CommitSlotId | js/adslot.js:120-123 | a name is generated and committed only when the state's id is `null`; otherwise the id and the counter are unchanged |
| AdSlots.AdSlot.AnnouncementCalls | js/adslot.js:59-61 | at most one call, `newSlotCallback`, present exactly when the context's `newSlotCallback` is truthy |
| AdSlots.AdSlot.RegisterSlot | js/adslot.js:119-127 | as above, then the registration calls; with a truthy `slotId` prop the counter is unchanged and that prop is the registered id; the registered id is truthy and is `getSlotId()` |
| AdSlots.AdSlot.ComponentDidMount | js/adslot.js:57-63 | a truthy `newSlotCallback` in the context is called first, then the slot registers as above |
| AdSlots.AdSlot.SlotRenderEnded | js/adslot.js:140-151 | `onSlotRender` is invoked, once, exactly when the event's `slotId` is the slot's id and the callback is defined, with the event extended by `adElementRef` |
| AdSlots.AdSlot.SlotIsViewable | js/adslot.js:164-170 | `onSlotIsViewable` is invoked, once, exactly when the ids match and the callback is defined, with the event unchanged |
| AdSlots.AdSlot.SlotVisibilityChanged | js/adslot.js:172-178 | `onSlotVisibilityChanged` is invoked, once, exactly when the ids match and the callback is defined, with the event unchanged |
| AdSlots.AdSlot.OtherSlotsEventsIgnored | js/adslot.js:140-178 | an event addressed to a slot with a different id makes no call on any channel |
| AdSlots.GeneratedIdsSeparateSlots | js/adslot.js:140-178 | two slots named at different counter values have different ids, so an event for one never reaches the other's owner |
| AdSlots.AdSlot.SlotShouldRefresh | js/adslot.js:180-190 | without a `shouldRefresh` prop the answer is `true`; with one it is the predicate's answer on the refresh record |
| AdSlots.AdSlot.GetClasses | js/adslot.js:73-78 | the last class is `adunitContainer`; the others are the space-separated pieces of the state's class name, which they join back to; the whole list joins to the class name, a space and `adunitContainer` |
| Scenarios.TwoDynamicSlots | js/adslot.js:80-82 | two slots without ids, mounted in order on a fresh page, are named `adSlot-0` and `adSlot-1` |
| Scenarios.FetchNowWithExplicitId | js/adslot.js:102-117 | a slot with `{fetchNow: true, slotId: "s1"}` registers under `s1`, loads `s1`, attaches three handlers and reports `{slotId: "s1", sizes, slotCount: 0, adElementRef}` |
| Scenarios.EventForFirstSlot | js/adslot.js:164-170 | a viewability event for `adSlot-0` reaches the owner of `adSlot-0` and not the owner of `adSlot-1` |
| Scenarios.RefreshVeto | js/adslot.js:180-190 | a predicate answering `false` vetoes a refresh; without a predicate the refresh is allowed |

## Left out

- Rendering (`render`, js/adslot.js:192-204), the `ref` wiring and the `createRef` fallback (js/adslot.js:52-54): view layer. The element reference is the opaque value `ElementRef(slot)`.
- Prop type declarations (js/adslot.js:9-30) and the legacy `contextTypes`/`contextType` branch (js/adslot.js:207-218): framework plumbing with no runtime effect on the slot logic. Only the `fetchNow: false` default is modelled.
- `DFPManager` and the slots provider are not part of this model. Each call into them is a `Trace` entry and no more.
- React's asynchronous `setState`: committing the generated id and then running `doRegisterSlot` are two sequential steps.
- Re-rendering: `props` and `context` are constants of a slot. A parent that changes them after mount is not modelled.
- The context is always an object. When `this.context` is `undefined`, `mapContextToAdSlotProps` throws (js/adslot.js:87); the model does not cover that path.
- Exceptions: an owner callback that throws, a defined callback that is not a function (calling it throws), and failures inside the coordinator.
- Owner callbacks are opaque values (`Func(id)`). Their invocations are recorded, but their own effects are not run.
- AdSlots.AdSlot.SlotShouldRefresh: the predicate is a Dafny `Record -> bool`. A JavaScript predicate returning a non-boolean value, which the source passes through unchanged, is not modelled.
- AdSlots.AdSlot.GetClasses: requires the state's class name to be a string. A truthy non-string `className` prop makes `split` throw in the source.
- Strict equality (`===`) of event ids is structural equality of `Value`s. For object-valued ids JavaScript compares references instead.
- Numbers are unbounded integers. The counter never loses precision, although a JavaScript number does beyond 2^53. `NaN` and `-0`, which are also falsy, are not values of the model.
- The trace records the unbound handler identity, not distinct closure objects. `bind` in the constructor (js/adslot.js:38-47) is not modelled.
