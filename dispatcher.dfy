/** `ReferenceUpdaterDispatcher` and its `ReferenceDescriptionAcceptor`: the references to
    renamed elements that the reference finder reports are sorted by the reference updater
    of the language holding the referring resource, and each updater is then asked for the
    updates of its own group. The acceptor's `Accept` and `GetReferenceUpdater` and the
    dispatcher's collecting and dispatching methods are proved against module DispatchSpec;
    the status, the update acceptor, the two handlers and the per-updater overload state
    their appends directly. */
module Refactoring {
  import opened Options
  import opened Uris
  import opened Descriptions
  import opened DispatchSpec

  /** The refactoring status every part of one rename reports into. */
  class StatusWrapper {
    var entries: seq<StatusEntry>

    constructor ()
      ensures entries == []
    {
      entries := [];
    }

    method Add(e: StatusEntry)
      modifies this
      ensures entries == old(entries) + [e]
    {
      entries := entries + [e];
    }
  }

  /** `IRefactoringUpdateAcceptor`: collects the changes of all updaters and carries the
      status of the refactoring. */
  class RefactoringUpdateAcceptor {
    var changes: seq<Change>
    const status: StatusWrapper

    constructor (status: StatusWrapper)
      ensures changes == [] && this.status == status
    {
      changes := [];
      this.status := status;
    }

    method Accept(cs: seq<Change>)
      modifies this
      ensures changes == old(changes) + cs
    {
      changes := changes + cs;
    }
  }

  class ReferenceDescriptionAcceptor {
    const langs: Languages
    var provider2updater: map<ProviderId, UpdaterId>
    var updater2refs: map<UpdaterId, set<ReferenceDescription>>
    /** How many times this acceptor asked an injector for a reference updater. */
    var requests: nat
    const status: StatusWrapper

    /** The acceptor together with the status it reports into. */
    ghost function State(): AcceptorState
      reads this, status
    {
      AcceptorState(provider2updater, updater2refs, status.entries, requests)
    }

    ghost predicate Consistent()
      reads this, status
    {
      Valid(langs, State())
    }

    constructor (langs: Languages, status: StatusWrapper)
      ensures this.langs == langs && this.status == status
      ensures State() == Initial(status.entries) && Consistent()
    {
      this.langs := langs;
      this.status := status;
      provider2updater := map[];
      updater2refs := map[];
      requests := 0;
    }

    /** `accept`: classify one description and record it. */
    method Accept(d: ReferenceDescription)
      requires Resolvable(langs, d) && Consistent()
      modifies this, status
      ensures State() == DispatchSpec.Accept(langs, old(State()), d)
      ensures Consistent()
    {
      AcceptValid(langs, State(), d);
      if d.source.None? || d.target.None? || d.eReference.None? {
        HandleCorruptReferenceDescription(d);
      } else {
        var sourceResourceUri := d.source.value.TrimFragment();
        var referenceUpdater := GetReferenceUpdater(sourceResourceUri);
        if referenceUpdater.None? {
          HandleNoReferenceUpdater(sourceResourceUri);
        } else {
          var u := referenceUpdater.value;
          var group := if u in updater2refs then updater2refs[u] else {};
          updater2refs := updater2refs[u := group + {d}];
        }
      }
    }

    method HandleNoReferenceUpdater(sourceResourceUri: Uri)
      modifies status
      ensures status.entries == old(status.entries) + [StatusEntry(Warning, Some(sourceResourceUri))]
    {
      status.Add(StatusEntry(Warning, Some(sourceResourceUri)));
    }

    method HandleCorruptReferenceDescription(d: ReferenceDescription)
      modifies status
      ensures status.entries == old(status.entries) + [StatusEntry(Error, None)]
    {
      status.Add(StatusEntry(Error, None));
    }

    /** `getReferenceUpdater`, through the provider-to-updater memo cache. */
    method GetReferenceUpdater(sourceResourceUri: Uri) returns (u: Option<UpdaterId>)
      requires langs.registry(sourceResourceUri).Some?
      modifies this
      ensures (u, State()) == Lookup(langs, old(State()), sourceResourceUri)
    {
      var provider := langs.registry(sourceResourceUri).value;
      if provider in provider2updater {
        u := Some(provider2updater[provider]);
      } else {
        // the optional injection: null when the language binds no updater
        u := if langs.hasUpdater(provider) then Some(langs.instance(provider, requests)) else None;
        requests := requests + 1;
        if u.Some? {
          provider2updater := provider2updater[provider := u.value];
        }
      }
    }

    method GetReferenceUpdater2ReferenceDescriptions() returns (groups: map<UpdaterId, set<ReferenceDescription>>)
      ensures groups == State().groups
    {
      groups := updater2refs;
    }
  }

  class ReferenceUpdaterDispatcher {
    const langs: Languages
    /** What each updater computes for a group of descriptions. */
    const compute: (UpdaterId, set<ReferenceDescription>) -> seq<Change>

    constructor (langs: Languages, compute: (UpdaterId, set<ReferenceDescription>) -> seq<Change>)
      ensures this.langs == langs && this.compute == compute
    {
      this.langs := langs;
      this.compute := compute;
    }

    /** The per-updater overload: nothing happens once cancellation is signalled at this
        step; otherwise the updater adds its changes. */
    method CreateReferenceUpdatesFor(updater: UpdaterId, descriptions: set<ReferenceDescription>,
                                     updateAcceptor: RefactoringUpdateAcceptor,
                                     isCanceled: nat -> bool, step: nat)
      modifies updateAcceptor
      ensures updateAcceptor.changes ==
        old(updateAcceptor.changes) + (if isCanceled(step) then [] else compute(updater, descriptions))
    {
      if isCanceled(step) {
        return;
      }
      updateAcceptor.Accept(compute(updater, descriptions));
    }

    /** The reference finder reporting `found` to a new acceptor, in order: the groups it
        collects, and the status it reports into. */
    method CollectReferences(found: seq<ReferenceDescription>, status: StatusWrapper)
      returns (groups: map<UpdaterId, set<ReferenceDescription>>)
      requires AllResolvable(langs, found)
      modifies status
      ensures groups == AcceptAll(langs, Initial(old(status.entries)), found).groups
      ensures status.entries == old(status.entries) + Diagnostics(langs, found)
      ensures Valid(langs, AcceptAll(langs, Initial(old(status.entries)), found))
    {
      ghost var init := Initial(status.entries);
      var acceptor := new ReferenceDescriptionAcceptor(langs, status);
      var i := 0;
      while i < |found|
        invariant 0 <= i <= |found|
        invariant acceptor.langs == langs && acceptor.status == status
        invariant AllResolvable(langs, found[..i])
        invariant acceptor.State() == AcceptAll(langs, init, found[..i])
        invariant acceptor.Consistent()
      {
        assert found[..i + 1][..i] == found[..i];
        acceptor.Accept(found[i]);
        i := i + 1;
      }
      assert found[..i] == found;
      AcceptAllStatus(langs, init, found);
      groups := acceptor.GetReferenceUpdater2ReferenceDescriptions();
    }

    /** The dispatch loop: every key of the multimap is visited once, in the multimap's
        order, returned as `order`, and its updater is asked for its group's updates. */
    method DispatchAll(groups: map<UpdaterId, set<ReferenceDescription>>,
                       updateAcceptor: RefactoringUpdateAcceptor, isCanceled: nat -> bool)
      returns (ghost order: seq<UpdaterId>)
      modifies updateAcceptor
      ensures Enumerates(order, groups.Keys)
      ensures updateAcceptor.changes == old(updateAcceptor.changes) + Updates(order, isCanceled, groups, compute)
    {
      var keys := groups.Keys;
      var step := 0;
      order := [];
      ghost var seen: set<UpdaterId> := {};
      while keys != {}
        invariant step == |order|
        invariant keys !! seen && keys + seen == groups.Keys
        invariant Enumerates(order, seen)
        invariant updateAcceptor.changes == old(updateAcceptor.changes) + Updates(order, isCanceled, groups, compute)
        decreases keys
      {
        var u :| u in keys;
        CreateReferenceUpdatesFor(u, groups[u], updateAcceptor, isCanceled, step);
        UpdatesSnoc(order, u, isCanceled, groups, compute);
        EnumeratesSnoc(order, seen, u);
        order := order + [u];
        seen := seen + {u};
        keys := keys - {u};
        step := step + 1;
      }
    }

    /** A rename: `found` is what the reference finder reports, in order; `isCanceled(i)`
        is the cancellation flag when the `i`-th updater's turn comes. */
    method CreateReferenceUpdates(found: seq<ReferenceDescription>, updateAcceptor: RefactoringUpdateAcceptor,
                                  isCanceled: nat -> bool)
      returns (ghost groups: map<UpdaterId, set<ReferenceDescription>>, ghost order: seq<UpdaterId>)
      requires AllResolvable(langs, found)
      modifies updateAcceptor, updateAcceptor.status
      ensures groups == AcceptAll(langs, Initial(old(updateAcceptor.status.entries)), found).groups
      ensures Valid(langs, AcceptAll(langs, Initial(old(updateAcceptor.status.entries)), found))
      ensures updateAcceptor.status.entries == old(updateAcceptor.status.entries) + Diagnostics(langs, found)
      ensures Enumerates(order, groups.Keys)
      ensures updateAcceptor.changes == old(updateAcceptor.changes) + Updates(order, isCanceled, groups, compute)
    {
      var multimap := CollectReferences(found, updateAcceptor.status);
      groups := multimap;
      order := DispatchAll(multimap, updateAcceptor, isCanceled);
    }
  }
}
