# STAG Information Model mocks: a verified model of the core

This project models in Dafny the logic of the STAG Information Model mocks.
These are the fakes a test builds a device out of. The model covers:

- **The fake executor** (`FakeExecutor`). It simulates asynchronous calls of a callable:
  - hands out call ids;
  - queues the calls;
  - picks a response for each call: the one pinned to its id, else the next queued one, else the default;
  - settles, cancels or answers the calls one at a time.

  `executor_spec.dfy` states every operation as a pure transition over the whole engine state. `executor.dfy` holds the classes of the source (`IdRepository`, `DispatchQueue`, `ResponseRepository`, `FakeExecutor`); each method is proved to perform the transition of the same name. `executor_properties.dfy` proves:
  - the engine invariant is kept by every operation of the engine with `respondOnce` corrected (see "Findings"); the engine as written breaks it but keeps a weaker one: every pending future is registered;
  - on both engines, the destructor's `cancelAll` leaves no future pending;
  - the life cycle of one call;
  - the order in which calls meet responses;
  - the id reuse defect under "Findings".
- **Hierarchical element addressing** (`GroupMock`, `group_mock.dfy`):
  - child ids are generated as `device:n` and `group.n`;
  - `addElement` checks the prefix, then inserts the element or hands it to the subgroup its id names;
  - `getElement` looks an element up recursively by its dotted id;
  - `toVector` reads the elements under the keys "0" to "size-1".

  Group objects are shared between the builder and the tree. They live in a `GroupStore`, and a group pointer is an index into it.
- **The observer registry** (`ObservableMock`, `observable_mock.dfy`):
  - `enableSubscribeFaking` and `subscribe`;
  - `attachObserver`;
  - `notify`, which prunes dropped observers in place while it dispatches;
  - the signals of the is-observing callback.

  User callbacks are recorded as a trace of calls.
- **The device builder** (`MockBuilder`, `mock_builder.dfy`):
  - at most one device in progress;
  - the argument checks of the validating `add*` overloads;
  - id assignment through the device root or a registered parent group;
  - registration of groups;
  - the empty-group check;
  - hand-over and reset in `result()`.

`wrappers.dfy` holds the Option/Result/Outcome types that stand in for exceptions and null pointers. `types.dfy` holds the shapes of the Information Model types the mocks use. `strings.dfy` holds the string operations ids are built from.

## Model

| member | source | states |
|---|---|---|
| Strings.IndexOf | sources/Mocks/GroupMock.cpp:65-66 | `find('.')`: no result exactly when the string has no '.', else the position of the first '.' |
| Strings.NatToStringInjective | sources/Mocks/GroupMock.cpp:37-41 | different counter values are spelled differently by `to_string` |
| ExecutorSpec.LeastFree | sources/Mocks/FakeExecutor.cpp:18-24 | the probe of `assignID` finds the least natural not in use |
| ExecutorSpec.FreeIds | sources/Mocks/FakeExecutor.cpp:26-34 | `freeIDs` keeps exactly the ids whose handles have not expired, and adds none |
| ExecutorSpec.GetResponse | sources/Mocks/FakeExecutor.cpp:77-89 | the response pinned to the id, which is erased; else the head of the FIFO, which is popped; else the default, never consumed |
| ExecutorSpec.QueuedResponsesInOrder | sources/Mocks/FakeExecutor.cpp:71-89 | calls without a pinned response take the queued responses in queue order, one each, and the default once the queue is empty; the pins and the default stay, and the queue loses exactly what was handed out |
| ExecutorSpec.Settled | sources/Mocks/FakeExecutor.cpp:147-152 | a response always settles a future: a value fulfils it with that value, an exception fails it with that exception |
| ExecutorSpec.CheckType | sources/Mocks/FakeExecutor.cpp:180-192 | exceptions pass; a value passes iff its type is the declared result type; values on a None executor and mismatched types are refused with their own errors |
| ExecutorProperties.InitSatisfiesInv | sources/Mocks/FakeExecutor.cpp:100-110 | a new executor satisfies the engine invariant |
| ExecutorProperties.AsyncCallPreservesInv | sources/Mocks/FakeExecutor.cpp:125-141 | `asyncCall` keeps the invariant; a fresh id never belongs to a registered call |
| ExecutorProperties.RespondPreservesInv | sources/Mocks/FakeExecutor.cpp:143-157 | `respond` keeps the invariant |
| ExecutorProperties.CancelPreservesInv | sources/Mocks/FakeExecutor.cpp:159-166 | `cancel` keeps the invariant |
| ExecutorProperties.CancelAllCancelsEveryCall | sources/Mocks/FakeExecutor.cpp:168-174 | after `cancelAll` no call is registered; each registered call's future holds CallCanceled for its own id; already settled futures are untouched |
| ExecutorProperties.QueueResponsePreservesInv | sources/Mocks/FakeExecutor.cpp:194-197 | queueing a checked response keeps the invariant |
| ExecutorProperties.QueueResponseForPreservesInv | sources/Mocks/FakeExecutor.cpp:199-202 | pinning a checked response keeps the invariant |
| ExecutorProperties.DispatchPreservesInv | sources/Mocks/FakeExecutor.cpp:205-208 | dispatching the oldest call keeps the invariant and frees no id |
| ExecutorProperties.RespondOncePreservesInv | sources/Mocks/FakeExecutor.cpp:204-210 | `respondOnce` (corrected) keeps the invariant |
| ExecutorProperties.ApplyPreservesInv | includes/FakeExecutor.hpp:46-152 | every operation of the executor interface, with `respondOnce` corrected, keeps the invariant |
| ExecutorProperties.ResultTypeNeverChanges | sources/Mocks/FakeExecutor.cpp:176 | no sequence of operations changes the declared result type |
| ExecutorProperties.TeardownSettlesEveryCall | sources/Mocks/FakeExecutor.cpp:112 | after any run of the engine with `respondOnce` corrected, the destructor's `cancelAll` leaves no future pending and fails each registered call with CallCanceled for its own id |
| ExecutorProperties.AsyncCallKeepsSettleable | sources/Mocks/FakeExecutor.cpp:125-141 | `asyncCall` keeps every pending future registered, even when the new id is still registered |
| ExecutorProperties.SettleOneKeepsSettleable | sources/Mocks/FakeExecutor.cpp:147-152 | settling one registered call and dropping its promise keeps every other pending future registered |
| ExecutorProperties.CancelAllSettlesEveryCall | sources/Mocks/FakeExecutor.cpp:168-174 | on any state where pending futures are registered, `cancelAll` leaves no future pending, fails each registered call with CallCanceled for its own id and keeps settled futures |
| ExecutorProperties.DispatchKeepsSettleable | sources/Mocks/FakeExecutor.cpp:205-208 | dispatching the oldest call keeps every pending future registered |
| ExecutorProperties.ApplyAsWrittenKeepsSettleable | includes/FakeExecutor.hpp:46-152 | every operation of the engine as written, `respondOnce` freeing ids of registered calls included, keeps every pending future registered |
| ExecutorProperties.TeardownSettlesEveryCallAsWritten | sources/Mocks/FakeExecutor.cpp:112 | after any run of the engine as written, the destructor's `cancelAll` leaves no future pending and fails each registered call with CallCanceled for its own id |
| ExecutorProperties.AsyncCallRegistersFreshCall | sources/Mocks/FakeExecutor.cpp:129-140 | an accepted call gets an unused id, one new pending future registered under it, and a place at the back of the dispatch queue |
| ExecutorProperties.AsyncCallNeedsResultType | sources/Mocks/FakeExecutor.cpp:126-128 | an executor without result type throws ResultReturningNotSupported and changes nothing |
| ExecutorProperties.RejectedParametersFailTheFuture | sources/Mocks/FakeExecutor.cpp:131-136 | a failed parameter check fails the future at once; the call is neither registered nor queued, but its id stays reserved |
| ExecutorProperties.RespondTwiceFails | includes/FakeExecutor.hpp:109-122 | a call is settled once; answering it again throws CallerNotFound and changes nothing |
| ExecutorProperties.CancelThenRespondFails | includes/FakeExecutor.hpp:48-63 | a cancelled call holds CallCanceled and can no longer be answered |
| ExecutorProperties.CancelUnknownIsNoop | includes/FakeExecutor.hpp:48-63 | cancelling an id without a linked future does nothing |
| ExecutorProperties.QueueResponseChecksType | sources/Mocks/FakeExecutor.cpp:194-197 | a response is queued iff it passes the type check; a refused one changes nothing |
| ExecutorProperties.PinnedResponseFirstWins | sources/Mocks/FakeExecutor.cpp:73-75 | of two responses pinned to one id, the first is the one delivered |
| ExecutorProperties.RespondOnceResolvesOldest | includes/FakeExecutor.hpp:144-152 | `respondOnce` settles the oldest queued call with its chosen response, consumes that response, and leaves the other calls untouched |
| ExecutorProperties.RespondOnceForGoneCall | sources/Mocks/FakeExecutor.cpp:204-210 | when the oldest queued call was already settled, `respondOnce` still consumes a response, throws CallerNotFound and frees no id |
| ExecutorProperties.RespondOnceDeliversDeclaredType | sources/Mocks/FakeExecutor.cpp:194-210 | when the default has the declared type, every value `respondOnce` delivers has the declared type |
| ExecutorProperties.CallsMeetResponsesInOrder | sources/Mocks/FakeExecutor.cpp:77-89 | worked run: the first call takes the queued response, the second the default, and ids start at 0 |
| ExecutorProperties.RespondSkipsTypeCheck | sources/Mocks/FakeExecutor.cpp:143-157 | `respond` accepts a value of another type than the declared one |
| ExecutorProperties.StaleIdCollision | sources/Mocks/FakeExecutor.cpp:204-210 | as written: a still registered id is freed and reused, and the new call's future breaks |
| ExecutorProperties.StaleIdAvoided | sources/Mocks/FakeExecutor.cpp:204-210 | corrected: on the same run the new call gets a fresh id and is registered |
| ExecutorProperties.EveryAcceptedCallIsRegistered | sources/Mocks/FakeExecutor.cpp:137-139 | corrected: after any run, an accepted call is registered with a pending future |
| Executor.IdRepository.AssignID | sources/Mocks/FakeExecutor.cpp:18-24 | the probe loop returns the least free id and reserves it |
| Executor.IdRepository.FreeIDs | sources/Mocks/FakeExecutor.cpp:26-34 | the erase-while-iterating loop leaves exactly the ids of live handles |
| Executor.DispatchQueue.Enqueue | sources/Mocks/FakeExecutor.cpp:41-45 | appends the id at the back |
| Executor.DispatchQueue.Dequeue | sources/Mocks/FakeExecutor.cpp:47-57 | returns and removes the oldest id; nothing, with the queue unchanged, when it is empty |
| Executor.ResponseRepository.Enqueue | sources/Mocks/FakeExecutor.cpp:71 | appends the response to the FIFO |
| Executor.ResponseRepository.Emplace | sources/Mocks/FakeExecutor.cpp:73-75 | pins the response unless one is pinned to the id already |
| Executor.ResponseRepository.Get | sources/Mocks/FakeExecutor.cpp:77-89 | performs `GetResponse` on the repository |
| Executor.FakeExecutor.constructor | sources/Mocks/FakeExecutor.cpp:100-110 | the initial engine state, which satisfies the invariant |
| Executor.FakeExecutor.AsyncCall | sources/Mocks/FakeExecutor.cpp:125-141 | performs the `asyncCall` transition and keeps the invariant |
| Executor.FakeExecutor.Respond | sources/Mocks/FakeExecutor.cpp:143-157 | performs the `respond` transition |
| Executor.FakeExecutor.Cancel | sources/Mocks/FakeExecutor.cpp:159-166 | performs the `cancel` transition |
| Executor.FakeExecutor.CancelAll | sources/Mocks/FakeExecutor.cpp:168-174 | the loop over the registered calls followed by `clear()` performs `cancelAll` |
| Executor.FakeExecutor.QueueResponse | sources/Mocks/FakeExecutor.cpp:194-197 | type-checks, then queues |
| Executor.FakeExecutor.QueueResponseFor | sources/Mocks/FakeExecutor.cpp:199-202 | type-checks, then pins |
| Executor.FakeExecutor.RespondOnce | sources/Mocks/FakeExecutor.cpp:204-210 | dispatches the oldest call, then frees the expired ids, except those of calls still registered (corrected) |
| Groups.ChildIdRoute | sources/Mocks/GroupMock.cpp:37-41 | a generated id lies inside its group, differs from the group's own id, does not end with '.', and both add and lookup take it straight to the counter's key |
| Groups.ChildIdsDistinct | sources/Mocks/GroupMock.cpp:37-41 | different counter values give different ids |
| Groups.AddRouteAgreesWithLookup | sources/Mocks/GroupMock.cpp:58-66 | `addElement` and `getElement` route an id alike, except that only `addElement` drops a trailing '.' |
| Groups.SegmentRoute | sources/Mocks/GroupMock.cpp:103-110 | an id made of the group id and one segment looks up that key |
| Groups.GetElement | sources/Mocks/GroupMock.cpp:89-124 | a failed lookup names the requested id and is IDPointsThisGroup, ElementNotFound or the empty-remainder case |
| Groups.InsertWellformed | sources/Mocks/GroupMock.cpp:76-85 | inserting under a free key, and registering a newer group as subgroup, keeps the tree well formed |
| Groups.InsertKeepsLookups | sources/Mocks/GroupMock.cpp:76-85 | inserting under a free key changes no lookup that succeeded before |
| Groups.LookupsAgree | sources/Mocks/GroupMock.cpp:89-124 | lookups depend only on ids, elements and subgroups, not on counters or groups made later |
| Groups.ParentIsSubgroup | sources/Mocks/GroupMock.cpp:67-74 | the parent `addElement` delegates to is the subgroup registered under the segment |
| Groups.IndexKeysCount | sources/Mocks/GroupMock.cpp:9-22 | there are n index keys "0" to "n-1" |
| Groups.ToVector | sources/Mocks/GroupMock.cpp:9-22 | succeeds iff every key "0" to "size-1" is present, and returns those elements in order; otherwise throws for the first missing key |
| Groups.ToVectorCoversAll | sources/Mocks/GroupMock.cpp:9-22 | when it succeeds, its keys are all the keys, so no element is left out |
| Groups.GroupStore.NewGroup | sources/Mocks/GroupMock.cpp:24-35 | a new empty group with counter 0; lookups in the groups made before are unchanged |
| Groups.GroupStore.GenerateID | sources/Mocks/GroupMock.cpp:37-41 | returns the next child id of the group and bumps only its counter; no lookup changes |
| Groups.GroupStore.AddElement | sources/Mocks/GroupMock.cpp:43-87 | outcome and new groups are those of `AddEffect`: the checks in source order, an empty remainder refused, a one-segment remainder inserted under its key unless the key is in use; a deeper id looks up its parent, passes a failed lookup on, refuses a parent that is not a group and otherwise adds to the parent's group; an added element is found again; earlier lookups are kept; a failure changes nothing |
| Observables.LiveMembers | sources/Mocks/ObservableMock.cpp:95-102 | after pruning, an observer is kept iff it was registered and is not dropped; no duplicates arise |
| Observables.LiveSplit | sources/Mocks/ObservableMock.cpp:95-102 | pruning works element by element |
| Observables.LiveIdempotent | sources/Mocks/ObservableMock.cpp:95-102 | pruning twice with the same dropped set prunes nothing more |
| Observables.DeliveriesSplit | sources/Mocks/ObservableMock.cpp:95-102 | delivery works observer by observer, in registration order |
| Observables.DeliveriesReachEach | sources/Mocks/ObservableMock.cpp:55-62 | every kept observer gets the value; a throwing callback's exception goes to its own handler; nothing else is called |
| Observables.ObservableMock.EnableSubscribeFaking | sources/Mocks/ObservableMock.cpp:27-36 | a callback switches `subscribe` to tracking and becomes `is_observing_`; a null one switches to dummy observers and leaves `is_observing_` |
| Observables.ObservableMock.AttachObserver | sources/Mocks/ObservableMock.cpp:70-89 | empty callback, then empty handler, are refused; otherwise a new observer is appended, and the first one signals `true` |
| Observables.ObservableMock.Subscribe | sources/Mocks/ObservableMock.cpp:27-36 | null observer before configuration, dummy observer after a null callback, `attachObserver` after a callback |
| Observables.ObservableMock.DispatchToLive | sources/Mocks/ObservableMock.cpp:95-102 | the erase-while-iterating loop leaves exactly the live observers and dispatches to each, in order |
| Observables.ObservableMock.Notify | sources/Mocks/ObservableMock.cpp:91-107 | prunes and dispatches; if no observer is left, signals `false`, or throws bad_function_call when there is no is-observing callback |
| Builder.ParentOf | sources/Mocks/MockBuilder.cpp:262-278 | the group an id is drawn from: the root for an empty parent id, the registered parent otherwise, else NoParentGroup |
| Builder.NextIdGenerated | sources/Mocks/MockBuilder.cpp:271-278 | the id handed out is "device:n" from the root or "parent.n" from a parent, as the group's `generateID` makes it |
| Builder.MockBuilder.SetDeviceInfo | sources/Mocks/MockBuilder.cpp:9-17 | starts a device with a new root group "id:"; a second call throws DeviceBuildInProgress and changes nothing |
| Builder.MockBuilder.CheckBase | sources/Mocks/MockBuilder.cpp:296-300 | DeviceInfoNotSet exactly when no device is in progress |
| Builder.MockBuilder.GetParentGroup | sources/Mocks/MockBuilder.cpp:262-269 | the group registered under the id, else NoParentGroup |
| Builder.MockBuilder.AssignID | sources/Mocks/MockBuilder.cpp:271-278 | the next id of the root or of the parent; only that group's counter moves; an unknown parent changes nothing |
| Builder.MockBuilder.AddElementMock | sources/Mocks/MockBuilder.cpp:289-294 | the element is handed to the root; on success it is found from the root; a rejection changes nothing; earlier lookups are kept |
| Builder.MockBuilder.MakeElementMock | sources/Mocks/MockBuilder.cpp:280-287 | device check, then parent check, then a new id whose element is found from the root; the counter moves even when the add fails |
| Builder.MockBuilder.AddGroup | sources/Mocks/MockBuilder.cpp:23-32 | device check; new id; a new group registered under it unless the id is taken; the group is found from the root under its id |
| Builder.MockBuilder.AddReadable | sources/Mocks/MockBuilder.cpp:61-73 | None/Unknown type, then empty read callback, are refused with nothing changed; otherwise `makeElementMock` |
| Builder.MockBuilder.AddWritable | sources/Mocks/MockBuilder.cpp:103-116 | None/Unknown type, then empty write callback, are refused; the read callback is not checked |
| Builder.MockBuilder.AddObservable | sources/Mocks/MockBuilder.cpp:166-184 | type, read callback, then observing callback are checked in that order; the returned observable tracks subscribers with that callback |
| Builder.MockBuilder.AddCallable | sources/Mocks/MockBuilder.cpp:219-229 | an empty execute callback is refused; otherwise `makeElementMock` |
| Builder.MockBuilder.AddAsyncCallable | sources/Mocks/MockBuilder.cpp:239-260 | result type, then the execute, asynchronous execute and cancel callbacks are checked in that order |
| Builder.MockBuilder.CheckGroups | sources/Mocks/MockBuilder.cpp:302-311 | passes iff the root and every registered group have elements; an empty root is reported first, else some empty registered group |
| Builder.MockBuilder.BuildResult | sources/Mocks/MockBuilder.cpp:313-318 | hands over the device iff one is in progress and no group is empty; on success no device is in progress and nothing is registered |

## Left out

- The background responder (`start`/`stop` through a `Stoppable::Task`, which swallows exceptions) is concurrency over a foreign library. Only its single step, `respondOnce`, is modelled.
- Mutexes and the condition-variable wait in `DispatchQueue::dequeue` are not modelled. Everything is sequential, and `dequeue` does not block.
- The `sleep_for` latency of `delayCall`, and `execute`, are timing and a foreign check only.
- Foreign Information Model code is given as inputs:
  - the outcome of `checkParameters` is a parameter of `asyncCall`;
  - `toDataType` is a total function into the concrete types;
  - double values are opaque codes;
  - `toString` and the message texts are not modelled.
- Weak-pointer expiry is a parameter:
  - `expired` is the set of call ids whose futures were dropped;
  - `released` is the set of observers their subscribers dropped;
  - `throwing` is the set of observers whose observe callback throws.
- Promise/future pairs are slots in a sequence. A promise destroyed without a value is modelled as `BrokenPromise` in its slot.
- Call ids (`uintmax_t`) and group counters are unbounded: wrap-around is not modelled.
- `resultType` and `parameterTypes` are constant fields of the executor and have no member of their own.
- ExecutorProperties.ApplyPreservesInv: the full invariant is proved only for the engine with `respondOnce` corrected (`ExecutorSpec.Apply`). The engine as written breaks it (`ExecutorProperties.StaleIdCollision`). For that engine only the weaker invariant `Settleable` is proved, by `ExecutorProperties.ApplyAsWrittenKeepsSettleable`: registered calls own distinct pending futures, and every pending future is registered.
- ExecutorProperties.TeardownSettlesEveryCall: stated over runs of the corrected engine. The same promise for runs of the engine as written is `ExecutorProperties.TeardownSettlesEveryCallAsWritten`.
- The `FakeExecutor` class of `executor.dfy` implements the corrected `respondOnce`. The code as written exists only as the transition `ExecutorSpec.RespondOnceAsWritten`.
- ExecutorSpec.Respond: `respond` does not type-check its response, although queued responses are checked. The model follows the code (see `ExecutorProperties.RespondSkipsTypeCheck`).
- Groups.GroupStore.AddElement: an empty remainder (the element id equals the group id with its ':') makes the source read `front()`/`back()` of an empty string. That is undefined behaviour; it is modelled as the error `EmptyRemainder`, not as a precondition.
- Groups.GroupStore.AddElement: a group element must be the newest group and not yet anybody's subgroup. The source accepts any group, including one already in the tree, where lookups would not terminate.
- Groups.GroupStore.AddElement: add-then-lookup is stated only for ids that do not end with '.'. `addElement` drops such a '.' but `getElement` keeps it, so such an element is added but not found again.
- The Google Mock wiring is not modelled: `ON_CALL` defaults for `asMap`, `visit` and `element`, and the readable, writable, callable, element and meta-info mocks. A group's `size` is its number of elements, as its default says.
- `DeviceMock` is a value holding the device id and its root group, which has id "device id" + ":". Its `generateID` and `addElement` delegate to that group.
- Names, descriptions and the function objects behind each element (callbacks, executors, default values) are not modelled; an element keeps only its id and its kind.
- The `MockBuilder` overloads not declared in `includes/MockBuilder.hpp` are not modelled: those without callbacks, the executor overload, and `addObservable` without a read callback. The overloads without a parent id delegate with an empty parent id, which the model covers.
- Builder.MockBuilder.AddGroup: the builder does not prove that adding a generated id to the root always succeeds. That would need the reachability of every registered group from the root. A rejection is reported as `ElementRejected`, as the source would throw it.
- Builder.MockBuilder.AddReadable: without a device in progress, the argument checks run before `checkBase`, as in the code. No property is stated about which error wins in that case.
- Observables.ObservableMock.Notify: the header says `notify` does nothing when subscribe faking was never enabled or was last enabled with a null callback. The code instead:
  - dispatches to the observers already registered;
  - when none is left, calls `is_observing_`, which throws `bad_function_call` if it was never set.

  The model follows the code.
- The observers' callbacks, the shared value pointer and the exception passed to a handler are not modelled. The trace records only which callback was called for which observer.
- Groups are kept in a store that outlives each device. Shared-pointer lifetimes are not modelled.

## Findings

| source | as written | input that shows it | evidently intended | confidence | as-written member | corrected member |
|---|---|---|---|---|---|---|
| sources/Mocks/FakeExecutor.cpp:204-210 | `respondOnce` ends with `freeIDs`, which erases every id whose future was dropped, even an id whose call is still registered and queued | on an Integer executor, make calls A (id 0) and B (id 1), drop B's future, then run `respondOnce`: id 1 is freed while B stays registered. The next call C gets id 1, its `try_emplace` fails, its promise is destroyed (broken promise), and id 1 is queued twice | an id stays reserved while its call is registered, so every accepted call is registered | not executed; high for the reuse, medium for the intent | ExecutorProperties.StaleIdCollision | ExecutorProperties.EveryAcceptedCallIsRegistered |
