/** One instance's side of the leader lease. */
module Leaders {
  import opened Prelude
  import opened Leases
  import opened LogProtocol
  import opened Journals
  import opened TidbStores

  class Elector {
    const store: RelayStore
    const elects: bool          // false: single-instance mode, always the leader
    const ttl: nat
    var isLeader: bool

    constructor (store: RelayStore, elects: bool, ttl: nat)
      ensures this.store == store && this.elects == elects && !isLeader
    {
      this.store, this.elects, this.ttl := store, elects, ttl;
      isLeader := false;
    }

    /** An unanswered attempt leaves the flag as it was and claims nothing. */
    method TryAcquire() returns (r: Result<bool>)
      requires store.Ready()
      modifies this, store, store.cluster`sys, store.cluster`run, store.cluster`ticks, store.cluster`abandoned
      modifies store.journal
      ensures store.Ready() && old(store.cluster.run) <= store.cluster.run
      ensures old(store.cluster.ticks) <= store.cluster.ticks
      ensures r.Err? ==> elects && store.cluster.FailedSince(old(store.cluster.ticks))
      ensures store.cluster.Here() == old(store.cluster.Here())
      ensures store.journal.Took(TryLease(if r.Err? then Failed else if r.value then Yes else No))
      ensures isLeader == if r.Ok? then r.value else old(isLeader)
      ensures r.Ok? && elects ==>
                var t := store.now(old(store.clockReads));
                store.Elected(old(store.cluster.run), Acquire(store.cluster.me, t, t + ttl), r.value)
      ensures !elects ==> r == Ok(true) && store.cluster.run == old(store.cluster.run)
    {
      hide Exec, RelayStore.Elected;
      hide Obedient, Lost, Listed, Labelling, Swept, Renewed, Overruns, Failing, Unanswered, Refused, Listings;
      if !elects {
        isLeader := true;
        store.journal.Note(TryLease(Yes));
        return Ok(true);
      }
      r := store.TryAcquireLeaderLock(ttl);
      store.journal.Note(TryLease(if r.Err? then Failed else if r.value then Yes else No));
      if r.Ok? {
        isLeader := r.value;
      }
    }

    /** The flag drops before the call, so a second release issues no second delete. */
    method Release() returns (r: Result<()>)
      requires store.Ready()
      modifies this, store.cluster`sys, store.cluster`run, store.cluster`ticks, store.cluster`abandoned
      ensures r.Err? ==> old(isLeader) && elects && store.cluster.FailedSince(old(store.cluster.ticks))
      ensures store.Ready() && !isLeader && store.cluster.Here() == old(store.cluster.Here())
      ensures old(isLeader) && elects && r.Ok? ==>
                store.cluster.Issued(old(store.cluster.run), store.cluster.run, LogProtocol.Release(store.cluster.me))
      ensures !old(isLeader) || !elects ==> r == Ok(()) && store.cluster.run == old(store.cluster.run)
    {
      var was := isLeader;
      isLeader := false;
      if !was || !elects {
        return Ok(());
      }
      r := store.ReleaseLeaderLock();
    }
  }
}
