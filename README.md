# Reference bookkeeping of a rename refactoring (Xtext)

This project models two parts of Xtext's cross-file rename.

- `ReferenceUpdaterDispatcher` runs the rename. The reference finder reports reference descriptions, and its `ReferenceDescriptionAcceptor` sorts each one into one of three outcomes:
  - corrupt: a null source URI, target URI or `EReference` gives an ERROR status entry;
  - no updater: the language that owns the source resource binds no `IReferenceUpdater`, which gives a WARNING naming that resource;
  - grouped: otherwise the description goes under that updater in a set multimap.
- Updaters are looked up through a provider-to-updater memo cache. Each updater key is then visited once. When the cancellation flag is set at an updater's turn, that updater is skipped.
- `SerializableReferenceDescription` is a five-field record. It is written to and read from an object stream in a fixed field order. It is moved to a new resource URI when its resource is renamed.

Files:

- `options.dfy`: `Option` (Java `null` is `None`) and `Outcome`.
- `uris.dfy`: an EMF URI as a resource part plus an optional fragment, with `TrimFragment` and `AppendFragment`.
- `descriptions.dfy`: the `IReferenceDescription` value, with `Int32` for Java's `int`.
- `persistence.dfy`: module `Persistence`. It holds the stream format as functions (`Encode`, `ReadExternalSpec`, `Rehome`) with lemmas about them, the object streams, and the class `SerializableReferenceDescription`. Its `ReadExternal`, `WriteExternal` and `UpdateResourceUri` are proved against those functions; its constructor, getters and setters are stated over the record value `Description()`.
- `dispatch_spec.dfy`: module `DispatchSpec`. It holds `accept`, the cache lookup and the dispatch loop as functions on values, with lemmas about them. It also defines `Classify`, a cache-free three-way classification that the acceptor's behaviour is proved equal to.
- `dispatcher.dfy`: module `Refactoring`. It holds the classes `StatusWrapper`, `RefactoringUpdateAcceptor`, `ReferenceDescriptionAcceptor` and `ReferenceUpdaterDispatcher`. The methods proved against `DispatchSpec` are `ReferenceDescriptionAcceptor.Accept` and `GetReferenceUpdater`, and `ReferenceUpdaterDispatcher.CollectReferences`, `DispatchAll` and `CreateReferenceUpdates`. The others (`StatusWrapper.Add`, `RefactoringUpdateAcceptor.Accept`, `HandleNoReferenceUpdater`, `HandleCorruptReferenceDescription`, `CreateReferenceUpdatesFor`) state their appends directly.

Modelling choices:

- URIs, providers, updaters, `EReference`s and changes are opaque identities.
- The language registry is a function from a resource URI to an optional provider.
- Whether a language binds an updater is `hasUpdater(p)`.
- The updater object the injector hands out on the `k`-th request is `instance(p, k)`. Without a singleton binding, every request may give a new object. The memo cache is what makes all descriptions from one language land in one group (`SameProviderSameGroup`).
- The reference finder is the sequence `found` of descriptions it reports.
- What an updater computes for a group is the function `compute`.
- Cancellation is the oracle `isCanceled(i)`, read when the `i`-th updater's turn comes.
- The multimap's key order is not specified. The dispatch loop picks keys with `:|` and returns the order it used as a ghost value.

Behaviour as the code has it:

- Groups are unordered sets because the code uses `HashMultimap`; insertion order within a group is not kept.
- A cancelled turn skips only that updater. The loop goes on and checks the flag again at the next turn. `CancellationSkipsRest` shows that a flag that stays set skips every later updater.
- The cache is keyed by provider, not by registry lookup key.
- A source resource with no registered provider is a precondition (`Resolvable`). The code dereferences the provider without a null check, so there is no warning path for it.

## Model

| member | source | states |
|---|---|---|
| `Persistence.SerializableReferenceDescription.constructor` | org.eclipse.xtext/xtend-gen/org/eclipse/xtext/resource/persistence/SerializableReferenceDescription.java:28-36 | a new record has all three URIs and the `EReference` null and index 0 |
| `Persistence.SerializableReferenceDescription.WriteExternal` | org.eclipse.xtext/xtend-gen/org/eclipse/xtext/resource/persistence/SerializableReferenceDescription.java:53-59 | appends exactly the five tokens source, target, container, `EReference`, index, in that order, to what the stream already held |
| `Persistence.SerializableReferenceDescription.ReadExternal` | org.eclipse.xtext/xtend-gen/org/eclipse/xtext/resource/persistence/SerializableReferenceDescription.java:39-50 | reads the fields in the same order and overwrites each one as it is read; the first failing read stops it, keeping the fields already read and the rest of the old record |
| `Persistence.ReadCompletesOnRecord` | org.eclipse.xtext/xtend-gen/org/eclipse/xtext/resource/persistence/SerializableReferenceDescription.java:39-50 | reading completes if and only if the stream starts with a whole record; it then consumes exactly five tokens and overwrites all five fields, whatever the record held before |
| `Persistence.ReadFailureKeepsIndex` | org.eclipse.xtext/xtend-gen/org/eclipse/xtext/resource/persistence/SerializableReferenceDescription.java:39-50 | a read from a stream that does not start with a record fails, keeps the old `indexInList`, and consumes fewer than five tokens |
| `Persistence.ReadWhatWasWritten` | org.eclipse.xtext/xtend-gen/org/eclipse/xtext/resource/persistence/SerializableReferenceDescription.java:39-59 | round trip: reading what `writeExternal` wrote, even with more data after it, restores all five fields and leaves the following data unread |
| `Persistence.ReadTwoRecords` | org.eclipse.xtext/xtend-gen/org/eclipse/xtext/resource/persistence/SerializableReferenceDescription.java:39-59 | two records written back to back are read back in order, each exactly |
| `Persistence.ReadTruncatedRecord` | org.eclipse.xtext/xtend-gen/org/eclipse/xtext/resource/persistence/SerializableReferenceDescription.java:39-50 | a record cut short after fewer than five items fails at the end of the stream, having read the fields that were there and kept the old `indexInList`; this holds whatever the codecs check of an item's kind |
| `Persistence.WriteThenRead` | org.eclipse.xtext/xtend-gen/org/eclipse/xtext/resource/persistence/SerializableReferenceDescription.java:39-59 | writing one record object and reading the stream into another succeeds and makes the second equal to the first |
| `Persistence.SerializableReferenceDescription.UpdateResourceUri` | org.eclipse.xtext/xtend-gen/org/eclipse/xtext/resource/persistence/SerializableReferenceDescription.java:61-72 | the record becomes `Rehome` of its old value; both URIs must be non-null |
| `Persistence.RehomeSource` | org.eclipse.xtext/xtend-gen/org/eclipse/xtext/resource/persistence/SerializableReferenceDescription.java:61-64 | the source moves to the new resource and keeps its fragment, whatever resource it was in |
| `Persistence.RehomeTarget` | org.eclipse.xtext/xtend-gen/org/eclipse/xtext/resource/persistence/SerializableReferenceDescription.java:65-71 | the target keeps its fragment; it ends in the new resource if and only if its resource URI equals the old URI (or it was already there); otherwise it is unchanged |
| `Persistence.RehomeKeepsOtherFields` | org.eclipse.xtext/xtend-gen/org/eclipse/xtext/resource/persistence/SerializableReferenceDescription.java:61-72 | the container URI, `EReference` and index do not change |
| `Persistence.RehomeIdempotent` | org.eclipse.xtext/xtend-gen/org/eclipse/xtext/resource/persistence/SerializableReferenceDescription.java:61-71 | moving twice with the same arguments equals moving once |
| `Uris.TrimAfterAppend` | org.eclipse.xtext/xtend-gen/org/eclipse/xtext/resource/persistence/SerializableReferenceDescription.java:62-66 | trimming a URI after appending a fragment gives the plain resource URI, so a moved target compares equal to the new URI's resource part (to `newUri` itself when it has no fragment) |
| `Uris.TrimIdempotent` | org.eclipse.xtext/xtend-gen/org/eclipse/xtext/resource/persistence/SerializableReferenceDescription.java:65-66 | trimming an already trimmed URI changes nothing |
| `Uris.AppendOwnFragment` | org.eclipse.xtext/xtend-gen/org/eclipse/xtext/resource/persistence/SerializableReferenceDescription.java:62-63 | a URI is its resource URI with its own fragment appended, so moving to the same resource changes nothing |
| `Persistence.SerializableReferenceDescription.GetSourceEObjectUri` | org.eclipse.xtext/xtend-gen/org/eclipse/xtext/resource/persistence/SerializableReferenceDescription.java:75-77 | returns the source URI last set or read |
| `Persistence.SerializableReferenceDescription.SetSourceEObjectUri` | org.eclipse.xtext/xtend-gen/org/eclipse/xtext/resource/persistence/SerializableReferenceDescription.java:79-81 | changes the source URI and no other field |
| `Persistence.SerializableReferenceDescription.GetTargetEObjectUri` | org.eclipse.xtext/xtend-gen/org/eclipse/xtext/resource/persistence/SerializableReferenceDescription.java:84-86 | returns the target URI last set or read |
| `Persistence.SerializableReferenceDescription.SetTargetEObjectUri` | org.eclipse.xtext/xtend-gen/org/eclipse/xtext/resource/persistence/SerializableReferenceDescription.java:88-90 | changes the target URI and no other field |
| `Persistence.SerializableReferenceDescription.GetContainerEObjectUri` | org.eclipse.xtext/xtend-gen/org/eclipse/xtext/resource/persistence/SerializableReferenceDescription.java:93-95 | returns the container URI last set or read |
| `Persistence.SerializableReferenceDescription.SetContainerEObjectUri` | org.eclipse.xtext/xtend-gen/org/eclipse/xtext/resource/persistence/SerializableReferenceDescription.java:97-99 | changes the container URI and no other field |
| `Persistence.SerializableReferenceDescription.GetEReference` | org.eclipse.xtext/xtend-gen/org/eclipse/xtext/resource/persistence/SerializableReferenceDescription.java:102-104 | returns the `EReference` last set or read |
| `Persistence.SerializableReferenceDescription.SetEReference` | org.eclipse.xtext/xtend-gen/org/eclipse/xtext/resource/persistence/SerializableReferenceDescription.java:106-108 | changes the `EReference` and no other field |
| `Persistence.SerializableReferenceDescription.GetIndexInList` | org.eclipse.xtext/xtend-gen/org/eclipse/xtext/resource/persistence/SerializableReferenceDescription.java:111-113 | returns the index last set or read |
| `Persistence.SerializableReferenceDescription.SetIndexInList` | org.eclipse.xtext/xtend-gen/org/eclipse/xtext/resource/persistence/SerializableReferenceDescription.java:115-117 | changes the index and no other field |
| `Refactoring.ReferenceDescriptionAcceptor.constructor` | plugins/org.eclipse.xtext.ui/src/org/eclipse/xtext/ui/refactoring/impl/ReferenceUpdaterDispatcher.java:87-97 | starts with an empty cache and empty groups, reports into the given status, and satisfies the acceptor invariant |
| `Refactoring.ReferenceDescriptionAcceptor.Accept` | plugins/org.eclipse.xtext.ui/src/org/eclipse/xtext/ui/refactoring/impl/ReferenceUpdaterDispatcher.java:99-112 | changes the cache, groups and status exactly as `DispatchSpec.Accept` says, and keeps the acceptor invariant |
| `Refactoring.ReferenceDescriptionAcceptor.HandleNoReferenceUpdater` | plugins/org.eclipse.xtext.ui/src/org/eclipse/xtext/ui/refactoring/impl/ReferenceUpdaterDispatcher.java:114-118 | appends one WARNING entry naming the source resource URI |
| `Refactoring.ReferenceDescriptionAcceptor.HandleCorruptReferenceDescription` | plugins/org.eclipse.xtext.ui/src/org/eclipse/xtext/ui/refactoring/impl/ReferenceUpdaterDispatcher.java:120-124 | appends one ERROR entry |
| `Refactoring.ReferenceDescriptionAcceptor.GetReferenceUpdater` | plugins/org.eclipse.xtext.ui/src/org/eclipse/xtext/ui/refactoring/impl/ReferenceUpdaterDispatcher.java:126-136 | answers and updates the cache exactly as `DispatchSpec.Lookup` says |
| `Refactoring.ReferenceDescriptionAcceptor.GetReferenceUpdater2ReferenceDescriptions` | plugins/org.eclipse.xtext.ui/src/org/eclipse/xtext/ui/refactoring/impl/ReferenceUpdaterDispatcher.java:138-140 | returns the collected updater-to-descriptions multimap |
| `DispatchSpec.InitialValid` | plugins/org.eclipse.xtext.ui/src/org/eclipse/xtext/ui/refactoring/impl/ReferenceUpdaterDispatcher.java:87-88 | a fresh acceptor satisfies the invariant and groups nothing |
| `DispatchSpec.LookupCached` | plugins/org.eclipse.xtext.ui/src/org/eclipse/xtext/ui/refactoring/impl/ReferenceUpdaterDispatcher.java:126-130 | a cached provider gets the same updater as before, and the injector is not asked again |
| `DispatchSpec.LookupFacts` | plugins/org.eclipse.xtext.ui/src/org/eclipse/xtext/ui/refactoring/impl/ReferenceUpdaterDispatcher.java:126-135 | the lookup finds an updater if and only if the language binds one; a found updater is cached; the cache never loses or changes an entry and holds only providers that bind an updater |
| `DispatchSpec.SameProviderSameGroup` | plugins/org.eclipse.xtext.ui/src/org/eclipse/xtext/ui/refactoring/impl/ReferenceUpdaterDispatcher.java:126-135 | under the invariant, grouped descriptions from one language share one group, even when the injector gives out new updater objects, and each description is in one group only |
| `DispatchSpec.AcceptCorrupt` | plugins/org.eclipse.xtext.ui/src/org/eclipse/xtext/ui/refactoring/impl/ReferenceUpdaterDispatcher.java:99-103 | a description with a null source, target or `EReference` changes nothing except adding exactly one ERROR entry |
| `DispatchSpec.AcceptNoUpdater` | plugins/org.eclipse.xtext.ui/src/org/eclipse/xtext/ui/refactoring/impl/ReferenceUpdaterDispatcher.java:105-118 | a well-formed description whose language binds no updater is not grouped, and exactly one WARNING naming the trimmed source URI is added |
| `DispatchSpec.AcceptRouted` | plugins/org.eclipse.xtext.ui/src/org/eclipse/xtext/ui/refactoring/impl/ReferenceUpdaterDispatcher.java:105-110 | any other description is added to the group of the updater cached for its source's provider, and the status is unchanged |
| `DispatchSpec.TargetPlaysNoPart` | plugins/org.eclipse.xtext.ui/src/org/eclipse/xtext/ui/refactoring/impl/ReferenceUpdaterDispatcher.java:99-106 | two non-corrupt descriptions with the same source are classified alike and leave the same cache, status and group keys, whatever their targets are |
| `DispatchSpec.AcceptValid` | plugins/org.eclipse.xtext.ui/src/org/eclipse/xtext/ui/refactoring/impl/ReferenceUpdaterDispatcher.java:99-135 | `accept` keeps the invariant; the cache only grows and keeps its values |
| `DispatchSpec.AcceptGrouped` | plugins/org.eclipse.xtext.ui/src/org/eclipse/xtext/ui/refactoring/impl/ReferenceUpdaterDispatcher.java:99-112 | one `accept` adds the description to the grouped ones exactly when `Classify` routes it, and removes none |
| `DispatchSpec.AcceptTwiceSameGroups` | plugins/org.eclipse.xtext.ui/src/org/eclipse/xtext/ui/refactoring/impl/ReferenceUpdaterDispatcher.java:88-110 | accepting an equal description again right after the first `accept` leaves groups and cache unchanged |
| `DispatchSpec.AcceptGroupedAgain` | plugins/org.eclipse.xtext.ui/src/org/eclipse/xtext/ui/refactoring/impl/ReferenceUpdaterDispatcher.java:88-110 | accepting a description equal to one already grouped, at any later point, changes nothing: not the groups, the cache, the status or the injector requests |
| `DispatchSpec.AcceptAllValid` | plugins/org.eclipse.xtext.ui/src/org/eclipse/xtext/ui/refactoring/impl/ReferenceUpdaterDispatcher.java:99-135 | a stream of `accept` calls keeps the invariant |
| `DispatchSpec.AcceptAllStatus` | plugins/org.eclipse.xtext.ui/src/org/eclipse/xtext/ui/refactoring/impl/ReferenceUpdaterDispatcher.java:99-124 | after a stream, the status is the old status followed by one ERROR per corrupt description and one WARNING (naming its resource) per description without an updater, in stream order |
| `DispatchSpec.DiagnosticsCount` | plugins/org.eclipse.xtext.ui/src/org/eclipse/xtext/ui/refactoring/impl/ReferenceUpdaterDispatcher.java:99-124 | the number of entries added equals the number of corrupt descriptions plus the number of descriptions without an updater |
| `DispatchSpec.AcceptAllGrouped` | plugins/org.eclipse.xtext.ui/src/org/eclipse/xtext/ui/refactoring/impl/ReferenceUpdaterDispatcher.java:99-112 | after a stream, the grouped descriptions are the old ones plus exactly the routed ones of the stream |
| `Refactoring.ReferenceUpdaterDispatcher.CollectReferences` | plugins/org.eclipse.xtext.ui/src/org/eclipse/xtext/ui/refactoring/impl/ReferenceUpdaterDispatcher.java:59-64 | feeding the found descriptions to a new acceptor yields the groups of `AcceptAll`, a status extended by exactly `Diagnostics`, and a state that satisfies the invariant |
| `Refactoring.ReferenceUpdaterDispatcher.CreateReferenceUpdatesFor` | plugins/org.eclipse.xtext.ui/src/org/eclipse/xtext/ui/refactoring/impl/ReferenceUpdaterDispatcher.java:72-79 | when cancellation is signalled at this step, nothing changes; otherwise the updater's changes for its descriptions are appended |
| `Refactoring.ReferenceUpdaterDispatcher.DispatchAll` | plugins/org.eclipse.xtext.ui/src/org/eclipse/xtext/ui/refactoring/impl/ReferenceUpdaterDispatcher.java:65-69 | visits every key of the multimap exactly once, and appends `Updates` for that order to the changes already there |
| `Refactoring.ReferenceUpdaterDispatcher.CreateReferenceUpdates` | plugins/org.eclipse.xtext.ui/src/org/eclipse/xtext/ui/refactoring/impl/ReferenceUpdaterDispatcher.java:53-70 | a whole rename: grouping, status and changes as `AcceptAll`, `Diagnostics` and `Updates` say, for some order that visits each key once |
| `DispatchSpec.InvokedIff` | plugins/org.eclipse.xtext.ui/src/org/eclipse/xtext/ui/refactoring/impl/ReferenceUpdaterDispatcher.java:66-78 | an updater is invoked if and only if it is visited at a step where cancellation is not signalled |
| `DispatchSpec.InvokedAtMostOnce` | plugins/org.eclipse.xtext.ui/src/org/eclipse/xtext/ui/refactoring/impl/ReferenceUpdaterDispatcher.java:66-69 | an order that visits each key once invokes each updater at most once |
| `DispatchSpec.InvokedWithin` | plugins/org.eclipse.xtext.ui/src/org/eclipse/xtext/ui/refactoring/impl/ReferenceUpdaterDispatcher.java:66-69 | only visited keys are invoked |
| `DispatchSpec.NoCancellationInvokesAll` | plugins/org.eclipse.xtext.ui/src/org/eclipse/xtext/ui/refactoring/impl/ReferenceUpdaterDispatcher.java:66-79 | without cancellation, every visited updater is invoked, in visiting order |
| `DispatchSpec.CancellationSkipsRest` | plugins/org.eclipse.xtext.ui/src/org/eclipse/xtext/ui/refactoring/impl/ReferenceUpdaterDispatcher.java:72-78 | when cancellation stays signalled from step `k` on, no updater after step `k` is invoked |
| `DispatchSpec.InvokedPrefix` | plugins/org.eclipse.xtext.ui/src/org/eclipse/xtext/ui/refactoring/impl/ReferenceUpdaterDispatcher.java:66-78 | the updaters invoked in the first `k` steps are a prefix of those invoked in the whole run |
| `DispatchSpec.UpdatesSnoc` | plugins/org.eclipse.xtext.ui/src/org/eclipse/xtext/ui/refactoring/impl/ReferenceUpdaterDispatcher.java:72-78 | visiting one more key appends that updater's changes for its own group, or nothing if the step is cancelled |
| `DispatchSpec.UpdatesPrefix` | plugins/org.eclipse.xtext.ui/src/org/eclipse/xtext/ui/refactoring/impl/ReferenceUpdaterDispatcher.java:72-78 | changes from earlier updaters stay in place at the front; when cancellation stays signalled after step `k`, nothing is added after the first `k` steps |
| `DispatchSpec.UpdatesOfInvoked` | plugins/org.eclipse.xtext.ui/src/org/eclipse/xtext/ui/refactoring/impl/ReferenceUpdaterDispatcher.java:63-78 | the changes of a run are those of the invoked updaters in turn, each called with exactly its own group |

## Left out

- Finding references, `ResourceAccess` registration and `SubMonitor` progress arithmetic are left out. They are external collaborators and progress plumbing. The finder is the sequence `found` of descriptions it reports.
- `ElementRenameArguments` is not modelled. The dispatcher only passes it on to the finder and the updaters.
- Each `IReferenceUpdater`'s edit computation is the opaque function `compute`. Its code is not part of this model. Status entries an updater might add itself are not modelled.
- The order within groups and the order of the updater keys are not modelled. A `HashMultimap` and its `keySet` give no order, so the dispatch order is existentially chosen.
- A source resource without a registered provider is excluded by precondition (`Resolvable`). The code dereferences the provider without a null check.
- Status messages are not modelled. Only the severity and the named URI of each entry are kept.
- Descriptions are compared as values. The source's `SerializableReferenceDescription` inherits identity equality, so two distinct but equal objects would be two entries of a Java group and one entry here.
- `SerializationExtensions` byte encoding of URIs and Ecore elements is not part of this model. A stream is a sequence of tokens that carry their values, so the two codecs invert each other by construction.
- Persistence.ReadCompletesOnRecord: the "only if" half holds only because each token carries its kind. The Java reads bytes, and whether a misplaced item is noticed depends on `SerializationExtensions`, which is not part of this model; `ReadTruncatedRecord` states the part that holds whatever the codec.
- Persistence.ReadFailureKeepsIndex: the failure it states for a stream holding an item of the wrong kind relies on typed tokens in the same way; for a stream that ends early it does not (`ReadTruncatedRecord`).
- Persistence.SerializableReferenceDescription.WriteExternal: never fails. The Java method is declared to throw `IOException`, from the underlying stream; stream failures are not modelled.
- Persistence.ObjectInput: a failing read consumes nothing. The state of a Java stream after an `IOException` is not known here.
- Uris.Uri.AppendFragment: replaces any fragment the URI has. EMF's own `appendFragment` is not part of this model.
- Persistence.SerializableReferenceDescription.UpdateResourceUri: requires non-null source and target URIs. The Java `updateResourceURI` dereferences both and would throw a `NullPointerException`. With a non-null source and a null target it has already moved the source when the exception comes, which the model does not represent.
- Persistence.SerializableReferenceDescription.UpdateResourceUri: its arguments `newUri` and `oldUri` are plain `Uri`s, never null. With a null `oldURI` the Java moves only the source, because the null-safe comparison never matches; the model gives the same result for any `oldUri` that no target lies in (`RehomeTarget`). A null `newURI` throws a `NullPointerException` before any field changes, which the model does not represent.
- The context files are not modelled. The scope-provider tests are almost entirely commented out. The JDT type-scope test, package loading, standalone setup, generated parsers, accessor classes, interfaces and the empty exception carry no core logic.
