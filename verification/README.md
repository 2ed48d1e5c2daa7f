# Model of the rayforce-rs bindings

rayforce-rs is a safe Rust layer over a C engine. What is hard in it is not the calls it forwards
but the protocols it runs around them. This project models five of them in Dafny and proves what
they keep, over all runs and all outcomes of the engine's calls.

* **Values** (`Heap`, `ValueOps`, `ValueSemantics`, `ValueApi`, `Vectors`). A `Value` owns one
  reference to a reference-counted object; clones retain, drops release, containers hold references
  of their own, and `set`, `push` and `list_push` consume a buffer and get back a possibly relocated
  one, copied if it was shared. The heap is a store of counts and bodies; a run is any sequence of
  operations, with any addresses handed out again as soon as they are free and any call failing.
  Counts are exact, the container graph is acyclic, the store is what handles reach, and what every
  handle reads is what a model of separate immutable trees says.
* **Queries** (`Ops`, `Query`, `Lowering`, `Builders`). Expressions get a partial semantics over an
  engine that is a parameter. The rewrite of `sum` and `count` over `filter` refines it, lowering to
  an AST preserves and can undo it, and the `where` entry of a builder is the conjunction.
* **The guarded server** (`Serve`, `ServeApi`). The loop's thread with nested guard calls, a watcher
  thread per server, client cancels, an injected clock and drains, interleaved one lock section at a
  time.
* **Connection identity** (`Subscriptions`, `SubscriptionsApi`, `TcpClients`). Slots and addresses
  are reused; handles are not allowed to act on their successors.
* **Processes and builds** (`RuntimeScope`, `Lambda`, `BuildStamp`, `BuildStage`). One runtime per
  process, fresh global names, a staged source tree and the stamp of its objects.

State the source updates in place is a class. The methods of `ValueApi.Bindings`,
`SubscriptionsApi.Session` and the lock sections of `ServeApi.Guarded` are proved equal to the step
functions the theorems are about; those of `RuntimeScope.Process`, `TcpClients.TcpClient`,
`Lambda.Fn`, `BuildStamp.Tree`, `BuildStage.Store` and the whole guard call state their new state
directly. The interleaved systems are step functions with a history. What the model asks of the
engine is written as preconditions (`SumLaws`, `KeepsContract`, `NoneLands`, `Polite`, `Succeeds`)
or left open as a choice in each event; where a promise depends on it, the exact condition is
proved.

Some fields are history the program does not keep: `leaked` in the heap, request ordinals, `drained`,
`stops` and `replies` in the server, connection numbers and close counts, and the log of engine calls.

Where comment and code part, the model follows the code:

* `set_null` (rayforce/src/vector.rs:398-408) writes through a shared buffer, unlike the other
  mutations; `ValueSemantics.SetNullIsolatedExactly` says when that shows.
* The comment above `dag_rewrite` (rayforce/src/query.rs:30-32) presents the rewrite as an
  equivalence. It is a refinement: see `Query.CountAgreesExactly` and `Query.SumAgreesExactly`.
* `is_current` (rayforce-sys/build.rs:339-350) counts on the size check against a same-instant edit;
  `BuildStage.StagedContents` gives the edits that still slip through.
* `is_alive` (rayforce/src/q.rs:424-434) speaks of the connection; it can be met by one the crate did
  not attach, which `Subscriptions.AliveExactly` states as its exact condition.

`dafny verify dfyconfig.toml` checks the whole project.

## Model

| member | source | states |
|---|---|---|
| `Vectors.Column.constructor` | rayforce/src/vector.rs:56-69 | a vector built from raw elements holds them in order and raises HAS_NULLS exactly when a gated type has a sentinel among them |
| `Vectors.Column.Set` | rayforce/src/vector.rs:356-377 | refused exactly on a wrong type or an index out of range, and then nothing changes; otherwise the element at the index is the new one, and every other element, the length and the null attribute are as before |
| `Vectors.Column.Push` | rayforce/src/vector.rs:380-388 | refused exactly on a wrong type, and then nothing changes; otherwise the elements are the old ones in order with the new one after them, and the null attribute is left alone |
| `Vectors.Column.SetNull` | rayforce/src/vector.rs:398-408 | refused for BOOL and U8 and out of range; `false` changes nothing; `true` writes the sentinel at the index, leaves every other element, and raises HAS_NULLS |
| `Vectors.Column.ToOptions` | rayforce/src/vector.rs:335-342 | extraction gives None exactly at sentinel positions, whatever put the sentinel there, and fails exactly when some element is not null and the reader (a scalar's, `String`'s, or `Value`'s) does not accept its type |
| `Vectors.PlainReadsExactly` | rayforce/src/vector.rs:256-332 | extracting an element to a plain scalar fails exactly where the vector reports a null, text aside; otherwise the payload comes out, unreported sentinels included |
| `Vectors.EditExactly` | rayforce/src/vector.rs:356-408 | what each of the three edits does, element by element |
| `Vectors.IsNullAtExactly` | rayforce/src/vector.rs:241-246 | after any run of `set`, `push` and `set_null`, `is_null_at` holds exactly at a sentinel, and for gated types only if the vector was built with one or a `set_null` took effect |
| `Vectors.IsNullAtAgrees` | rayforce/src/vector.rs:241-246 | when no sentinel was written by `set` or `push`, `is_null_at` sees every null extraction sees |
| `Vectors.PushedSentinelUnreported` | rayforce/src/vector.rs:380-388 | that condition is needed: a pushed sentinel extracts as None and is not reported |
| `Heap.RetainGood` | rayforce/src/value.rs:231-239 | a retain adds one reference to the count and to what is owed, keeping counts exact and the graph acyclic |
| `Heap.AllocGood` | rayforce/src/value.rs:63-72 | a new object takes over the references its slots are given and is owed to its creator, with a free address possibly used before |
| `Heap.DismantleGood` | rayforce/src/list.rs:50-64 | an object whose only reference is owed goes, and its slots' references become owed: the first half of growing in place |
| `Heap.ReleaseAllGood` | rayforce/src/value.rs:241-245 | the cascade of releases terminates and discharges exactly the references it was given, freeing whatever reaches zero |
| `Heap.ReleaseGood` | rayforce/src/value.rs:241-245 | releasing one owed reference keeps counts exact and acyclic, cascade included |
| `Heap.IntoHandleGood` | rayforce/src/value.rs:63-72 | taking ownership of an owed reference moves it into a handle without touching a count |
| `Heap.OutOfHandleGood` | rayforce/src/value.rs:120-126 | giving up a handle makes its reference owed without touching a count |
| `Heap.NoCycle` | rayforce/src/list.rs:50-64 | no object contains itself at any depth |
| `Heap.LiveIffReachable` | rayforce/src/value.rs:241-245 | an object is in the store if and only if a handle or an owed reference leads to it |
| `Heap.NoHandlesNoObjects` | rayforce/src/value.rs:241-245 | with no handle and nothing owed the heap is empty |
| `ValueOps.PushCanLand` | rayforce/src/list.rs:50-64 | pushing an item that is the list, through a clone, or that holds it at any depth never grows in place, because the count is then above one; so it cannot close a cycle |
| `ValueOps.CowGood` | rayforce/src/vector.rs:427-437 | a consuming call turns the owed buffer and the new slots' references into one owed result, in place or by copy |
| `ValueOps.MakeListGood` | rayforce/src/list.rs:15-33 | building a list, finished or broken off after any number of appends, keeps every count exact |
| `ValueOps.ListPushGood` | rayforce/src/list.rs:50-64 | a push into a list, done or failed, keeps every count exact and the graph acyclic |
| `ValueOps.MakeDictGood` | rayforce/src/dict.rs:13-22 | a dict takes both arguments' references, or on failure accounts for both |
| `ValueOps.StepValid` | rayforce/src/value.rs:63-132 | every operation with every outcome keeps each count equal to the handles and slots on the object, no slot or handle dangling, and the graph acyclic |
| `ValueOps.Conservation` | rayforce/src/value.rs:231-245 | after any run from the empty heap each object's count is the handles on it plus the slots holding it (plus what a failing call failed to release), and nothing names a freed object |
| `ValueOps.NothingButTheReachable` | rayforce/src/list.rs:15-64 | in every reachable state no container reaches itself and the store is exactly what is reachable |
| `ValueOps.EmptyAtTheEnd` | rayforce/src/vector.rs:427-437 | when the last handle is gone the heap is empty if and only if every failing call of the run consumed its argument |
| `ValueSemantics.DenotesUnique` | rayforce/src/value.rs:56-132 | an object reads as at most one tree |
| `ValueSemantics.EveryHeapReads` | rayforce/src/value.rs:56-132 | every valid heap gives every handle a reading, so the refinement is never vacuous |
| `ValueSemantics.StepRefines` | rayforce/src/vector.rs:356-388 | one step through one handle changes that handle's tree by exactly one update or append, or to null on failure, and no other handle's, however the buffer is shared or moved |
| `ValueSemantics.HandlesAreValues` | rayforce/src/vector.rs:356-437 | after any run what each handle reads, all the way down, is what a model of separate immutable values says |
| `ValueSemantics.SetRefused` | rayforce/src/vector.rs:356-377 | on a wrong type, an index out of range or what is no vector, `set` fails and the whole state is as it was |
| `ValueSemantics.SetReads` | rayforce/src/vector.rs:356-377 | otherwise the handle reads the old vector with the element at the index replaced and nothing else, or null on the core's failure, and every other handle reads what it read |
| `ValueSemantics.PushReads` | rayforce/src/vector.rs:380-388 | after a push the handle reads its old elements and then the new one, or null on failure; a wrong type changes nothing; every other handle reads what it read |
| `ValueSemantics.ListPushReads` | rayforce/src/list.rs:50-64 | after a list push the handle reads its old items and then what the other handle reads, which it goes on reading |
| `ValueSemantics.ListReads` | rayforce/src/list.rs:15-33 | a finished list reads what its items read, in order, and they go on reading it |
| `ValueSemantics.DictReads` | rayforce/src/dict.rs:13-22 | a dict reads as the keys and the values it was given, whose handles are gone either way |
| `ValueSemantics.PartsRead` | rayforce/src/dict.rs:30-43 | keys and values read back as what the dict was made of, a clone as what it is a clone of |
| `ValueSemantics.GetReads` | rayforce/src/vector.rs:256-332 | a list's item as it reads; a vector's element boxed, or the null singleton exactly at a sentinel of a vector that reports nulls, text aside; nothing out of range |
| `ValueSemantics.SetNullWrites` | rayforce/src/vector.rs:398-408 | when it is not refused and not a no-op, `set_null` writes the sentinel into one element of the one object, raises its attribute, and touches no count and no handle |
| `ValueSemantics.SoleSetNull` | rayforce/src/vector.rs:398-408 | `set_null` through a sole reference is one functional update of one value |
| `ValueSemantics.SharedSetNull` | rayforce/src/vector.rs:398-408 | a second handle on the object itself reads the null, so there the call is isolated only if it changed nothing |
| `ValueSemantics.WriteSeenExactly` | rayforce/src/vector.rs:398-408 | another handle goes on reading what it read exactly if the call changed nothing or that handle leads to the vector neither directly nor through any containers |
| `ValueSemantics.SetNullIsolatedExactly` | rayforce/src/vector.rs:390-408 | with nothing leaked, `set_null` leaves what every other handle reads alone if and only if the vector's count was one or the call changed nothing |
| `ValueApi.ReleaseUndoesRetain` | rayforce/src/value.rs:231-245 | releasing what was just retained restores every count and frees nothing |
| `ValueApi.BuilderUndone` | rayforce/src/list.rs:15-33 | a builder that fails after some appends, its buffer consumed, leaves the heap as it found it |
| `ValueApi.BuilderGrows` | rayforce/src/list.rs:15-33 | an append in the builder loop retains one item and leaves a list one longer, in place or moved |
| `ValueApi.Bindings.RayRelease` | rayforce/src/value.rs:241-245 | the release loop frees exactly what the recursive cascade does, and terminates |
| `ValueApi.Bindings.RayMutate` | rayforce/src/vector.rs:427-437 | a consuming call gives the copied-on-write buffer, or nothing with the reference consumed or recorded as left behind |
| `ValueApi.Bindings.Clone` | rayforce/src/value.rs:231-239 | a clone is a second handle on the same object, whose count it raises |
| `ValueApi.Bindings.Drop` | rayforce/src/value.rs:241-245 | a drop removes the handle and releases its reference, cascade included |
| `ValueApi.Bindings.Install` | rayforce/src/vector.rs:427-437 | the handle gets the new buffer, or the null singleton on an error |
| `ValueApi.Bindings.BuildLoop` | rayforce/src/list.rs:15-33 | the append loop ends in a list of all the items with one more reference to each, or in the state it started from if the failing call consumed the buffer |
| `ValueApi.Bindings.ListOf` | rayforce/src/list.rs:15-33 | the whole builder is the modelled step, and reports whether it finished |
| `ValueApi.Bindings.ListPush` | rayforce/src/list.rs:50-64 | the push is the modelled step, and reports whether it succeeded |
| `ValueApi.Bindings.DictOf` | rayforce/src/dict.rs:13-22 | both arguments leave their handles and one call consumes them |
| `ValueApi.Bindings.Set` | rayforce/src/vector.rs:356-377 | type and bounds are checked before the core is reached, and the result is the modelled step |
| `ValueApi.Bindings.Push` | rayforce/src/vector.rs:380-388 | the push is the modelled step, an atom being refused by the core |
| `ValueApi.Bindings.Get` | rayforce/src/vector.rs:256-332 | a list item is borrowed and retained, a vector element boxed, a null given as the singleton |
| `ValueApi.UncheckedSetLeaks` | rayforce/src/vector.rs:356-377 | without the bounds check an out-of-range set would leave a count that no handle or slot accounts for |
| `Ops.SectionsInvert` | rayforce/src/ops.rs:139-250 | each of the operators' names, looked up whole in an independently written inverse table, leads back to its operator |
| `Ops.NamesInvert` | rayforce/src/ops.rs:139-250 | every operator is found under its own name |
| `Ops.NamesDistinct` | rayforce/src/ops.rs:139-250 | no two operators share a name |
| `Query.MaskedTotal` | rayforce/src/query.rs:33-51 | adding a column with a neutral cell where the mask is false is adding what the mask keeps |
| `Query.OnesTotal` | rayforce/src/query.rs:53-70 | adding ones where the mask is true and zeros elsewhere counts the true bits |
| `Query.MaskedSum` | rayforce/src/query.rs:33-51 | `sum(if m c 0)` over a column is `sum(filter c m)`, and both fail when the lengths differ or the kind cannot be summed |
| `Query.CountRule` | rayforce/src/query.rs:53-70 | `sum(if m 1 0)` is the number of rows the mask keeps, whatever was to be filtered |
| `Query.RewriteRefines` | rayforce/src/query.rs:33-75 | for every expression over strict pure operators and every environment, nulls included, a defined expression and its rewrite have the same value, rewrites nested anywhere |
| `Query.CountAgreesExactly` | rayforce/src/query.rs:53-70 | for `count(filter c m)` original and rewrite agree if and only if `c` has a value that the mask can filter; otherwise an error becomes a number |
| `Query.CountOfMissingColumn` | rayforce/src/query.rs:53-70 | counting a filtered unknown column fails before the rewrite and succeeds after it |
| `Query.SumAgreesExactly` | rayforce/src/query.rs:33-51 | for `sum(filter c m)` under a mask, whatever `c` is, original and rewrite agree if and only if `c` is a column, or what `c` becomes by rewriting has no value or one the masked `if` makes nothing summable of |
| `Query.RewriteNormal` | rayforce/src/query.rs:33-75 | the rewrite leaves no `sum` or `count` directly over a two-operand filter, at any depth |
| `Query.RewriteIsNormalisation` | rayforce/src/query.rs:33-75 | the fixed points of the rewrite are exactly the normal forms, and it is idempotent |
| `Lowering.LoweringPreserves` | rayforce/src/expr.rs:195-221 | evaluating the lowered AST equals the direct semantics when no literal is a list or a name and no call is named like a builtin |
| `Lowering.LiftInvertsExactly` | rayforce/src/expr.rs:195-221 | an expression can be read back from its AST if and only if no literal is a list or a name and no call is named like a builtin |
| `Lowering.LoweringInjective` | rayforce/src/expr.rs:195-221 | two such expressions with the same AST are the same |
| `Lowering.CallOfBuiltinName` | rayforce/src/expr.rs:210-219 | a call named like a builtin has the operator's AST, so whatever was bound is bypassed |
| `Lowering.LiteralsStandForThemselves` | rayforce/src/expr.rs:198-198 | a literal evaluates to itself under every engine if and only if it is neither a list nor a name reference |
| `Lowering.RewriteKeepsLowerable` | rayforce/src/query.rs:33-75 | the rewrite introduces no literal or call that lowering could not undo |
| `Lowering.QueryCompilationRefines` | rayforce/src/query.rs:77-79 | what the query path compiles evaluates to the meaning of the rewritten expression, and of the original wherever that has one |
| `Lowering.Lower` | rayforce/src/expr.rs:195-221 | the loop that fills the item list produces the lowered form, head first and operands in order |
| `Builders.AndAllHolds` | rayforce/src/query.rs:176-183 | the left fold of any number of truth values holds on a row if and only if each of them does, and is a flag only if all are |
| `Builders.CombinableExactly` | rayforce/src/query.rs:176-183 | masks and flags can be combined if and only if the masks agree on the number of rows |
| `Builders.WhereKeepsExactly` | rayforce/src/query.rs:176-183 | the `where` entry, evaluated, keeps exactly the rows on which every added predicate holds, for any number of predicates |
| `Builders.CompileNamed` | rayforce/src/query.rs:158-164 | the loops over projections and groupings give the names and the compiled expressions in order |
| `Builders.CompileWhere` | rayforce/src/query.rs:176-183 | the loop over predicates gives one entry with their left-folded conjunction, or none |
| `Builders.CompileSelect` | rayforce/src/query.rs:157-186 | the dictionary lists each projection's name with its rewritten and lowered expression in order, then `by` with the groupings if any, then `from` with the table, then `where` with the conjunction if any |
| `Builders.CompileUpdate` | rayforce/src/query.rs:249-267 | the dictionary lists each assignment's name with its rewritten and lowered expression in order, then `from` with the table, then `where` with the conjunction if any |
| `Builders.ClausesFoundExactly` | rayforce/src/query.rs:157-186 | each clause asked for is what its key holds if and only if no projected column of that name means something else; one not asked for is there only as such a column |
| `Builders.UpdateClausesFoundExactly` | rayforce/src/query.rs:249-267 | the same for an update: `from`, and `where` when there are predicates, are found under their keys if and only if no assignment of that name means something else; with no predicate there is no `where` |
| `Builders.QueriesKeepExactly` | rayforce/src/query.rs:157-267 | the dictionary of a select and that of an update alike end in a `where` whose value keeps exactly the rows on which every added predicate holds |
| `Builders.SelectLaid` | rayforce/src/query.rs:157-186 | entry by entry, what stands where in a select's dictionary and in its groups |
| `Builders.UpdateLaid` | rayforce/src/query.rs:249-267 | entry by entry, what stands where in an update's dictionary |
| `Builders.JoinedInTurn` | rayforce/src/query.rs:176-183 | a single predicate is the conjunction itself, and each further one is joined to the right of what there is |
| `Builders.ProjectedFrom` | rayforce/src/query.rs:157-186 | a column projected as `from` stands beside the table under the same key |
| `Serve.SoundStep` | rayforce/src/serve.rs:308-313 | every atomic step of loop, watchers, clients and clock keeps one slot holder, one request in flight per server, and every watcher interrupt owned by a registered request |
| `Serve.NoStrayInterrupt` | rayforce/src/serve.rs:327-365 | a pending interrupt raised by a watcher belongs to a registered request it stopped; between requests only a client's own cancel can be pending |
| `Serve.FindsOwn` | rayforce/src/serve.rs:341-351 | a guard call about to finish finds its own request registered |
| `Serve.OneEndEach` | rayforce/src/serve.rs:289-291 | all drains, then what is pending, then the at most one request in flight are exactly the requests begun, in order; re-entrant calls have no end |
| `Serve.EndsTellTheTruth` | rayforce/src/serve.rs:341-365 | an end is answered exactly when evaluation gave a value even if interrupted, cancelled exactly on the cancel error with the watcher's reason if it had stopped the request and the client's otherwise, and failed on any other error |
| `Serve.StoppedOnce` | rayforce/src/serve.rs:375-394 | once a watcher has stopped a request nothing later in the run changes the reason, and if its end is a cancel it gives that reason |
| `Serve.BudgetSpent` | rayforce/src/serve.rs:375-394 | with a clock that never goes back, an end cancelled by budget has a duration of at least the budget |
| `Serve.ClockGoingBack` | rayforce/src/serve.rs:350-350 | with a clock that goes back it need not: a run reports a budget stop after 3 of 10 |
| `Serve.OneServer` | rayforce/src/serve.rs:180-233 | while a server starts, serves or is dropped a second start is refused and changes nothing, and a server that is gone has no watcher left |
| `Serve.LookStopsExactly` | rayforce/src/serve.rs:375-394 | a look stops an unstopped request by the budget exactly when it is spent, by the hangup exactly when it is not and the client is gone, and raises the interrupt exactly then; other servers and stopped requests are left alone |
| `Serve.WatcherStopsExactly` | rayforce/src/serve.rs:294-302 | a watcher goes on looking until the stop flag is set, which the handle's drop does before it joins the watcher and frees the slot |
| `Serve.StartExactly` | rayforce/src/serve.rs:180-212 | a start is refused with nothing changed exactly on a loop that is gone, a zero budget, port 0 or a server already there |
| `Serve.LaunchExactly` | rayforce/src/serve.rs:213-233 | it serves, watched, if hooks, port and thread were to be had, and gives the slot back otherwise |
| `Serve.GuardSteps` | rayforce/src/serve.rs:327-439 | a guard call step by step: which server it finds, what it registers, what it keeps of reply and text, how long it took, and that it leaves one end with these |
| `Serve.TakeClears` | rayforce/src/serve.rs:341-349 | the request is unregistered and every pending interrupt cleared in one step |
| `Serve.CancelStaysPending` | rayforce/src/serve.rs:341-365 | a client's cancel is pending, with no server touched, until something clears it |
| `Serve.DrainTakesAll` | rayforce/src/serve.rs:289-291 | a drain hands over what is pending, after what was handed over before, and leaves nothing |
| `ServeApi.FirstVerdictStands` | rayforce/src/serve.rs:375-394 | the first look with a verdict decides who stopped the request, whatever later looks see |
| `ServeApi.Guarded.Begin` | rayforce/src/serve.rs:327-338 | registers the request, unstopped and started now, unless one is registered, and says which |
| `ServeApi.Guarded.Check` | rayforce/src/serve.rs:375-394 | an unstopped request is stopped by the budget if there is one and the time since its start reaches it, else by the hangup if the client has gone, else not; the interrupt is raised exactly if it is stopped here; a stopped request, or none, is left alone |
| `ServeApi.Guarded.Watch` | rayforce/src/serve.rs:367-372 | any number of looks leaves the shared state as the looks one after the other do |
| `ServeApi.Guarded.Finish` | rayforce/src/serve.rs:341-365 | clears the interrupt, unregisters the request and appends its end with the time since its start and what became of it; nothing is appended if none was registered |
| `ServeApi.Guarded.Drain` | rayforce/src/serve.rs:289-291 | hands over all pending ends and leaves none |
| `ServeApi.Guarded.Call` | rayforce/src/serve.rs:427-439 | a guard call that found nothing registered leaves exactly one end with what happened; one that found a request registered leaves none |
| `Subscriptions.SoundStep` | rayforce/src/q.rs:137-172 | every attach, close by the peer, foreign registration and drop keeps connections, slots, claims and handles consistent, with ids and addresses reused freely |
| `Subscriptions.AliveExactly` | rayforce/src/q.rs:432-434 | `is_alive` holds exactly when this subscription's own connection is registered, or a connection this crate did not attach sits at the id and the address of an undropped handle where nothing was attached since; never both, and otherwise a send reaches the own one |
| `Subscriptions.CurrentStep` | rayforce/src/q.rs:149-172 | in every step the selector map holds exactly the claims of the handles that are undropped and the latest at their id |
| `Subscriptions.AliveMeansRegistered` | rayforce/src/q.rs:432-434 | in a run in which no foreign connection opens on both the id and the address of such a handle, `is_alive` means that the own connection is registered |
| `Subscriptions.DropsTouchOwn` | rayforce/src/q.rs:442-452 | in such a run no drop closes a connection other than its own |
| `Subscriptions.DropTouchesOwn` | rayforce/src/q.rs:442-452 | dropping a subscription, stale or not, closes no connection but its own, and leaves every other handle as alive as it was, with its claim |
| `Subscriptions.ImpostorIsClosed` | rayforce/src/q.rs:442-452 | with such a foreign connection there a drop closes it, so the condition is needed |
| `Subscriptions.ImpostorArises` | rayforce/src/poll.rs:180-186 | a run in which one arises: the peer leaves and a connection of the core's lands on slot and address |
| `Subscriptions.ClosedExactlyOnce` | rayforce/src/q.rs:179-219 | no descriptor is closed twice; and once its `QConnection` was dropped or passed to `attach`, accepted or refused, and every subscription is dropped, each one a connect returned has been closed exactly once |
| `Subscriptions.SpentExactly` | rayforce/src/q.rs:179-219 | dropping a `QConnection` closes its descriptor and so does an attach that the core refuses, once and with nothing else changed; an accepted attach registers it at the first free slot under a handle that is alive |
| `Subscriptions.OpenIsHeld` | rayforce/src/q.rs:179-219 | a descriptor not yet closed is with its `QConnection` or registered, so none is lost |
| `Subscriptions.PeerCloseEnds` | rayforce/src/q.rs:425-434 | when the peer goes away its slot is empty, its connection closed, and no handle of that id alive |
| `Subscriptions.ClaimsAreHandles` | rayforce/src/q.rs:149-172 | every entry of the selector map is the claim of exactly one undropped subscription, so the map never exceeds their number |
| `SubscriptionsApi.Session.Claim` | rayforce/src/q.rs:149-157 | a fresh token is taken and owns the id from then on |
| `SubscriptionsApi.Session.Release` | rayforce/src/q.rs:165-172 | the entry goes only if it is still this token's |
| `SubscriptionsApi.Session.Attach` | rayforce/src/q.rs:179-209 | a refused attach closes the descriptor once and gives no handle; an accepted one registers it at the first free slot, claims the id and gives a handle that is alive; no other connection is touched |
| `SubscriptionsApi.Session.Alive` | rayforce/src/q.rs:432-434 | token and address are both compared |
| `SubscriptionsApi.Session.DropSub` | rayforce/src/q.rs:442-452 | closes the selector only if alive, then gives up the claim |
| `SubscriptionsApi.Session.DropRaw` | rayforce/src/q.rs:212-219 | closes the descriptor once |
| `TcpClients.SoundStep` | rayforce/src/ipc.rs:196-216 | every step in which the core keeps its contract keeps each open handle on its own connection and each closed client's connection gone |
| `TcpClients.HandlesNameTheirOwn` | rayforce/src/ipc.rs:196-241 | in every run in which the core keeps its contract an open handle names the client's own connection, a closed one's is gone, and every call ever made through a client reached its own |
| `TcpClients.DropClosesOwn` | rayforce/src/ipc.rs:249-259 | a drop frees the slot of the client's own connection and no other |
| `TcpClients.ClosedForGood` | rayforce/src/ipc.rs:219-227 | a client marked closed stays closed and makes no further core call, whatever the core does |
| `TcpClients.CallsExactly` | rayforce/src/ipc.rs:196-259 | each use of an open client makes exactly one core call, with its handle, and a closed one none; a drop frees the slot besides |
| `TcpClients.ContractIsExact` | rayforce/src/ipc.rs:196-216 | after any step, the core's freeing a slot on its own account included, handles are right if and only if the core freed an open client's slot only in an exchange on it that it answered with an error and in which the slot was not taken again |
| `TcpClients.SoundExactly` | rayforce/src/ipc.rs:196-241 | handles are right at every moment of a run if and only if the core keeps that contract in every step |
| `TcpClients.ReachesNoOther` | rayforce/src/ipc.rs:205-215 | whenever the core frees slots and whatever it answers, as long as no connection is opened at a slot an open client still has, every call reached the client's own connection or none |
| `TcpClients.TakeoverHarms` | rayforce/src/ipc.rs:205-215 | the step that opens one there leaves a handle naming another's connection |
| `TcpClients.SlotFreedBetween` | rayforce/src/ipc.rs:230-241 | a slot the core frees while its client is idle, once taken by the next connection, takes that client's send along |
| `TcpClients.SlotTakenMeanwhile` | rayforce/src/ipc.rs:30-37 | an exchange that frees the slot and opens a connection leaves the handle on the other connection, which a drop then closes |
| `TcpClients.TcpClient.constructor` | rayforce/src/ipc.rs:120-156 | a client's handle is the lowest free slot |
| `TcpClients.TcpClient.RoundTrip` | rayforce/src/ipc.rs:196-216 | a closed client is refused with nothing sent; otherwise the handle is given up exactly when an error came back and the slot is empty |
| `TcpClients.TcpClient.SendAsync` | rayforce/src/ipc.rs:230-241 | refused on a closed client, and otherwise what the core answers |
| `TcpClients.TcpClient.Drop` | rayforce/src/ipc.rs:249-259 | an open client's slot is freed, a closed one's table untouched |
| `TcpClients.Poll.Exchange` | rayforce/src/ipc.rs:30-37 | connections opened during an exchange take the lowest free slots one after the other |
| `RuntimeScope.SoundStep` | rayforce/src/runtime.rs:34-47 | every atomic access of any thread keeps the flag, the thread cells and the engine's global consistent with at most one thread inside |
| `RuntimeScope.EngineObeys` | rayforce/src/runtime.rs:164-231 | in every interleaving the engine is never asked to make a second runtime, evaluate off its thread or without one, or unmap a heap before its poll; with no thread in a scope nothing is left |
| `RuntimeScope.CheckIsExact` | rayforce/src/runtime.rs:239-262 | the entry check passes exactly in the body of the calling thread's own scope, where calls go to that scope's runtime; elsewhere nothing is asked of the engine, and the two panics tell a scope elsewhere from none |
| `RuntimeScope.RefusedExactly` | rayforce/src/runtime.rs:164-191 | a scope is refused exactly while some thread is in one, the refusal changes nothing and names the right mistake, and after a failed creation or a teardown any thread can enter |
| `RuntimeScope.OneRuntime` | rayforce/src/runtime.rs:34-34 | at most one thread is in a scope and a runtime exists only there |
| `RuntimeScope.Process.New` | rayforce/src/runtime.rs:164-191 | refused, failed with everything restored, or a runtime owned by the calling thread |
| `RuntimeScope.Process.Drop` | rayforce/src/runtime.rs:210-231 | the poll is destroyed first if there is one, then the heap, and the process is as before the scope |
| `Lambda.HexReadsBack` | rayforce/src/lambda.rs:177-177 | the hexadecimal name of a number gives the number back |
| `Lambda.NamesDiffer` | rayforce/src/lambda.rs:177-177 | two numbers never share a generated name |
| `Lambda.DeferredCallsDenote` | rayforce/src/lambda.rs:167-197 | if the program sets no name of the generated form, every deferred call under one denotes the lambda it was made from, and no thread sets one twice, over any scopes, clones and failed binds |
| `Lambda.NamesSetOnce` | rayforce/src/lambda.rs:82-87 | the names a thread sets are pairwise different as strings |
| `Lambda.KeepsDenoting` | rayforce/src/lambda.rs:167-197 | a deferred call that denotes its lambda goes on doing so under all later binds, until the program itself sets that name |
| `Lambda.AppliesExactly` | rayforce/src/lambda.rs:124-130 | a deferred call denotes its lambda from the start if and only if the handle is unbound or its name still holds the lambda |
| `Lambda.ImpoliteSet` | rayforce/src/lambda.rs:167-181 | a program that sets a generated name redirects the deferred call that uses it |
| `Lambda.Fn.Bind` | rayforce/src/lambda.rs:167-181 | a bound handle keeps its name and touches nothing; otherwise the counter moves on, and unless the global is refused it holds the lambda under the new name |
| `Lambda.Fn.CloneFn` | rayforce/src/lambda.rs:227-236 | a clone is the same lambda under the same binding |
| `Lambda.HandlesMade` | rayforce/src/lambda.rs:124-147 | a wrapped lambda is unbound, one found by name bound under that name, an unknown name gives no handle, and a clone has the same lambda and binding |
| `Lambda.AppliedNames` | rayforce/src/lambda.rs:167-197 | a bound handle is applied under its name; an unbound one under the counter's, set in the environment and kept by the handle; a refused bind only moves the counter on |
| `BuildStamp.TruthExactly` | rayforce-sys/build.rs:402-415 | over builds with any flags, failing deletions and stops anywhere, the stamp tells what every object was compiled with throughout if and only if, in each build that came to write a stamp, every failed deletion hit something already compiled with what was written |
| `BuildStamp.BuildBegins` | rayforce-sys/build.rs:402-406 | a build under its own stamp goes straight to make; any other has all objects to delete first |
| `BuildStamp.SurvivingStep` | rayforce-sys/build.rs:407-412 | what is left of the objects is what a build has yet to delete and what it failed to delete |
| `BuildStamp.AnyFailureLies` | rayforce-sys/build.rs:402-415 | where a truthful stamp was found, a build's new stamp is truthful if and only if none of its deletions failed on anything |
| `BuildStamp.StampTellsTheTruth` | rayforce-sys/build.rs:402-415 | when no deletion fails it does, even if the write of the stamp itself is cut short |
| `BuildStamp.NoMixedArchive` | rayforce-sys/build.rs:511-517 | under a truthful stamp the archive holds the flags of all objects, and these are the build's own and no others |
| `BuildStamp.StuckObject` | rayforce-sys/build.rs:407-411 | an object that cannot be deleted is passed off as compiled with the new flags |
| `BuildStamp.Tree.Invalidate` | rayforce-sys/build.rs:402-415 | with a matching stamp nothing changes; otherwise all objects and the archive go, but for the ones that cannot be deleted, and the stamp is the new one |
| `BuildStage.Walk` | rayforce-sys/build.rs:366-380 | the worklist terminates and visits each file of every readable directory exactly as often as it is listed |
| `BuildStage.ReachedExactly` | rayforce-sys/build.rs:366-380 | a file of the tree is among the walk's files if and only if every directory on the way to it can be read |
| `BuildStage.VisitedOnce` | rayforce-sys/build.rs:366-380 | in a directory tree that lists no name twice the walk visits each file once |
| `BuildStage.SourcesAreFiles` | rayforce-sys/build.rs:309-325 | what is mirrored is exactly upstream's files that the source test accepts |
| `BuildStage.SourcesByEnding` | rayforce-sys/build.rs:323-325 | the source test, by the last dot of the last path component, accepts exactly the names that end in `.c` or `.h` after something else |
| `BuildStage.EndingsAreSources` | rayforce-sys/build.rs:323-325 | `x.c` and `x.h` are sources for every non-empty `x`, dots in it included; `x.o`, `.c` and `.h` are not |
| `BuildStage.MirroredByEnding` | rayforce-sys/build.rs:309-325 | what is mirrored is exactly upstream's files so named |
| `BuildStage.Store.CopyIfStale` | rayforce-sys/build.rs:327-337 | the destination is recorded either way; it is left alone exactly if it is there, dated no earlier than its source and as long, and otherwise gets the source's content; no other file is touched |
| `BuildStage.Store.Mirror` | rayforce-sys/build.rs:309-321 | succeeds exactly when every directory can be read, and then every upstream source is staged and recorded |
| `BuildStage.Store.Prune` | rayforce-sys/build.rs:355-363 | of the files on disk under the root, exactly the sources that were not recorded, lie behind readable directories only and can be deleted are removed |
| `BuildStage.Store.Stage` | rayforce-sys/build.rs:297-305 | staging mirrors the makefile and both trees and prunes both; the `.c` and `.h` files under staged `src` and `include` are then upstream's if and only if no stale one is undeletable or behind a staged directory that cannot be read |
| `BuildStage.StagedAt` | rayforce-sys/build.rs:297-363 | a `.c` or `.h` file is staged afterwards exactly if upstream has it, or it was there and is undeletable or behind an unreadable directory |
| `BuildStage.StagedExactly` | rayforce-sys/build.rs:297-363 | so the staged `.c` and `.h` files are upstream's if and only if no stale one is undeletable or behind an unreadable directory |
| `BuildStage.StagedReadably` | rayforce-sys/build.rs:297-363 | with every staged directory readable they are upstream's if and only if no stale one is undeletable |
| `BuildStage.StagedContents` | rayforce-sys/build.rs:327-363 | what was built in place survives; and the makefile and every staged source have upstream's content except exactly where an edit kept the length and is dated no later than the copy |

## Left out

* The C engine: its evaluator, allocator, wire codecs and DAG. Only what the Rust side states or
  relies on is modelled; the choices it makes are inputs of the steps.
* Slices (`slice`, `concat`, and `sym_domain` through slice parents): no contract for writing through
  a slice is visible on the Rust side, so no slice is made in the heap.
* `unsafe` aliasing of raw pointers, `as_slice` views and the element iterator.
* The thread-local stash described on `Runtime::scope`, and everything the `Send` bounds decide.
* Wrap-around of the 64-bit counters (`NEXT_TOKEN`, `BIND_COUNTER`) and of the 32-bit reference count.
* The value of a clause key that occurs twice in a query dictionary: which one the engine takes is
  not visible, so the model only says when the question does not arise.
* `sym_vec` and `str_vec` (append loops like `list`'s, with nothing retained), and of `Fn` the syntax
  check in `new` and the immediate `call`.
* Ordering of results, `take_rows` after an aggregation, joins, `insert` and `upsert`.
* Null handling, overflow and rounding inside sums: the refinement holds for every engine that obeys
  `SumLaws`, and these are left to it.
* The branch of `attach` in which a selector just registered does not resolve: on the runtime's thread
  registration always resolves, so it cannot be taken.
* Teardown of a poll that still holds connections: handles cannot outlive the scope, so the runs end
  with their drops.
* Sockets, handshakes, `peer_gone`'s peek and sleeping: they are inputs of the steps, at any time.
* `text_of` and the payload's evaluation itself: a request has a text and a reply.
* Panics of `create_dir_all`, `copy` and `write` in the build script: a stop at that point is one of
  the runs. Make's own dependency tracking: it may compile any object at any time it runs.
* Connecting, credentials, error texts, `timeout_ms`, the 8-byte Q header, CSV and splayed tables,
  scalar constructors and formatting: true, but easy compared with the rest.
* Vectors.Column.Set: the core's own failure, which leaves a null handle, is in `ValueApi.Bindings.Set`; a column by itself has no handle to lose.
* Vectors.Column.Push: the core's own failure is in `ValueApi.Bindings.Push`, for the same reason.
* Vectors.Column.SetNull: the refusal on slices is left out with the slices.
* Query.RewriteRefines: expressions with `quote`, `do`, `try`, `return`, `raise`, `set`, `let`, `env`, `eval`, `load`, `rand`, `select`, `update`, `insert` or `upsert` are outside it, because these do not simply evaluate their operands or are not functions of them.
* TcpClients.HandlesNameTheirOwn: holds for runs in which the core frees an open client's slot only in an exchange on it that it answers with an error, and does not hand the slot out again in that exchange; `TcpClients.SoundExactly` shows that each part is needed, and `TcpClients.ReachesNoOther` says what holds without it.
* ServeApi.Guarded.Call: the watcher's looks come while the request is registered, because a sequential method cannot interleave them elsewhere; the interleaved system in `Serve` has them at any time.
