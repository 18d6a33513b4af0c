/** The pool-backed relay store: its calls, statement by statement, over the shared cluster. */
module TidbStores {
  import opened Prelude
  import opened Sequencing
  import opened Leases
  import opened LogProtocol
  import opened LogSafety
  import opened LogTheorems
  import opened Lanes
  import opened Journals
  import opened Clusters

  const INITIAL_PAGE_CAP := 16

  /** A page: the decoded prefix, and the undecodable row right behind it. */
  datatype Listing = Listing(msgs: seq<nat>, poison: Option<nat>)

  /** Decoded messages, and the poison row behind them. */
  function RowsOn(listing: Listing): nat {
    |listing.msgs| + if listing.poison.Some? then 1 else 0
  }

  function ReadingOf(listing: Listing): Reading { Reading(|listing.msgs|, listing.poison) }

  class RelayStore {
    const cluster: Cluster
    const journal: Journal
    const retention: int
    const now: nat -> int            // this process's clock
    const scans: nat -> bool         // the row's columns convert
    var clockReads: nat

    constructor (cluster: Cluster, journal: Journal, retention: int, now: nat -> int, scans: nat -> bool)
      ensures this.cluster == cluster && this.journal == journal
    {
      this.cluster, this.journal, this.retention, this.now, this.scans := cluster, journal, retention, now, scans;
      clockReads := 0;
    }

    /** The others moved between any two statements; what is known of this instance is `Here`. */
    ghost predicate Ready() reads cluster { cluster.Valid() }

    method ReadClock() returns (t: int)
      modifies this
      ensures t == now(old(clockReads)) && clockReads == old(clockReads) + 1
    {
      t := now(clockReads);
      clockReads := clockReads + 1;
    }

    // ----- offsets

    method Offset() returns (r: Result<Option<nat>>)
      requires Ready() && cluster.Here().Idle?
      modifies cluster`sys, cluster`run, cluster`ticks, journal
      ensures old(cluster.ticks) <= cluster.ticks
      ensures r.Err? ==> cluster.FailedSince(old(cluster.ticks))
      ensures Ready() && old(cluster.run) <= cluster.run
      ensures journal.Took(ReadWatermark(if r.Ok? then Ok(r.value.Some?) else Err))
      ensures r.Ok? ==>
                cluster.Here() == (if r.value.Some? then At(r.value.value) else Unregistered) && cluster.Reads(r.value)
    {
      r := cluster.QueryOffset();
      journal.Note(ReadWatermark(if r.Ok? then Ok(r.value.Some?) else Err));
    }

    /**
      Creates the group's row at the newest seq unless there is one, then reads back whichever
      row survived: the answer is the offset the pass starts from.
     */
    method InitOffsetLatest() returns (r: Result<nat>)
      requires Ready() && cluster.Here().Unregistered?
      modifies cluster`sys, cluster`run, cluster`ticks, cluster`abandoned, journal
      ensures old(cluster.ticks) <= cluster.ticks
      ensures r.Err? ==> cluster.FailedSince(old(cluster.ticks))
      ensures Ready() && old(cluster.run) <= cluster.run && old(cluster.abandoned) <= cluster.abandoned
      ensures journal.Took(StartLatest(r.Ok?))
      ensures r.Ok? ==>
                exists k :: |old(cluster.run)| <= k < |cluster.run| && cluster.run[k] == RegisterLatest(cluster.me)
                            && StartsAtNewest(cluster.run, k)
      ensures r.Ok? ==> cluster.Here() == At(r.value) && cluster.Reads(Some(r.value))
    {
      hide Exec, Next, Cluster.Valid, Outside, RelayStore.StartsAtNewest;
      var inserted := cluster.ExecInitOffset();
      if inserted.Err? {
        journal.Note(StartLatest(false));
        return Err;
      }
      ghost var run := cluster.run;
      RegisteredAtNewest(run);
      var back := cluster.QueryOffset();
      if back.Ok? {
        StillReached(cluster.site, run, cluster.run[|run|..], cluster.Group(), 0);
        assert run + cluster.run[|run|..] == cluster.run;
        assert back.value.Some?;
      }
      if back.Err? || back.value.None? {
        journal.Note(StartLatest(false));
        return Err;
      }
      assert cluster.run[|run| - 1] == run[|run| - 1];
      NewestStays(run, cluster.run, |run| - 1);
      journal.Note(StartLatest(true));
      r := Ok(back.value.value);
    }

    /** Step `k` put the group, if it was new, at the largest seq in the log, or at 0 where that is empty. */
    ghost predicate StartsAtNewest(run: seq<Label>, k: nat)
      requires k < |run|
    {
      var before, after := Exec(cluster.site, run[..k]).db, Exec(cluster.site, run[..k + 1]).db;
      var g := cluster.Group();
      && g in after.offsets
      && if g in before.offsets then after.offsets[g] == before.offsets[g]
         else (forall n :: n in before.log ==> n <= after.offsets[g])
              && (after.offsets[g] in before.log || (after.offsets[g] == 0 && before.log == map[]))
    }

    lemma NewestStays(run: seq<Label>, later: seq<Label>, k: nat)
      requires k < |run| && run <= later && StartsAtNewest(run, k)
      ensures StartsAtNewest(later, k)
    {
      assert later[..k] == run[..k] && later[..k + 1] == run[..k + 1];
    }

    lemma RegisteredAtNewest(run: seq<Label>)
      requires Ready() && run == cluster.run && run != [] && run[|run| - 1] == RegisterLatest(cluster.me)
      requires LocalOf(Exec(cluster.site, run[..|run| - 1]), cluster.me).Unregistered?
      ensures StartsAtNewest(run, |run| - 1) && Reaches(Exec(cluster.site, run), cluster.Group(), 0)
    {
      EveryRunKeeps(cluster.site, run[..|run| - 1]);
      assert run[..|run| - 1 + 1] == run;
    }

    /** The plain monotone upsert. */
    method CommitOffset(n: nat) returns (r: Result<()>)
      requires Ready() && cluster.Committable(n) && !cluster.site.fleet(cluster.me).fenced
      modifies cluster`sys, cluster`run, cluster`ticks, cluster`abandoned, journal
      ensures old(cluster.ticks) <= cluster.ticks
      ensures r.Err? ==> cluster.FailedSince(old(cluster.ticks))
      ensures Ready() && old(cluster.run) <= cluster.run && old(cluster.abandoned) <= cluster.abandoned
      ensures journal.Took(CommitWatermark(if r.Ok? then Yes else Failed))
      ensures r.Ok? ==> cluster.Here() == At(n) && WatermarkReaches(cluster, n)
    {
      var res := cluster.ExecCommit(n);
      if res.Err? {
        journal.Note(CommitWatermark(Failed));
        return Err;
      }
      CommitReaches(cluster.site, cluster.run[..|cluster.run| - 1], cluster.run, cluster.me, n);
      journal.Note(CommitWatermark(Yes));
      r := Ok(());
    }

    /**
      `true` means the lock was held when the upsert ran and the stored watermark is at least
      `n`, even when the answer came from the separate read of the lock row; unless a bid this
      instance had given up on landed between the two.
     */
    method CommitOffsetFenced(n: nat) returns (r: Result<bool>)
      requires Ready() && cluster.Committable(n) && cluster.site.fleet(cluster.me).fenced
      modifies cluster`sys, cluster`run, cluster`ticks, cluster`abandoned, journal
      ensures old(cluster.ticks) <= cluster.ticks
      ensures r.Err? ==> cluster.FailedSince(old(cluster.ticks))
      ensures Ready() && old(cluster.run) <= cluster.run && old(cluster.abandoned) <= cluster.abandoned
      ensures journal.Took(CommitWatermark(if r.Err? then Failed else if r.value then Yes else No))
      ensures r.Ok? ==> cluster.Here() == At(n)
      ensures r == Ok(true) ==> CommittedSince(old(cluster.run), n)
      ensures r == Ok(false) ==> !HeldBy(Slot(cluster.sys.db, cluster.site.fleet(cluster.me).lock), cluster.me)
    {
      hide Exec, Next, Cluster.Valid, Outside, MayWrite, Cluster.LateBid, HeldBy;
      hide Obedient, Lost, Listed, Labelling, Swept, Renewed, Overruns, Failing, Unanswered, Refused, Listings;
      var res := cluster.ExecCommit(n);
      if res.Err? {
        journal.Note(CommitWatermark(Failed));
        return Err;
      }
      ghost var run := cluster.run;
      ghost var k := |run| - 1;
      if res.value > 0 {
        CommitReaches(cluster.site, run[..k], run, cluster.me, n);
        assert CommittedAt(k, n);
        journal.Note(CommitWatermark(Yes));
        return Ok(true);
      }
      var held := HoldsLeaderLock();
      if held.Err? {
        journal.Note(CommitWatermark(Failed));
        return Err;
      }
      if held.value {
        TrueOfTheCommit(run, n);
        assert CommittedAt(k, n);
      }
      journal.Note(CommitWatermark(if held.value then Yes else No));
      r := held;
    }

    /** Step `k` was the commit, behind an open fence and with effect, or a late bid has hidden that it was not. */
    ghost predicate CommittedAt(k: nat, n: nat)
      reads this, cluster
    {
      && k < |cluster.run| && cluster.run[k] == Commit(cluster.me, n)
      && ((HeldBy(Slot(Exec(cluster.site, cluster.run[..k]).db, cluster.site.fleet(cluster.me).lock), cluster.me)
           && WatermarkReaches(cluster, n))
          || cluster.LateBid(cluster.run[..k + 1]))
    }

    ghost predicate CommittedSince(past: seq<Label>, n: nat)
      reads this, cluster
    {
      exists k :: |past| <= k < |cluster.run| && CommittedAt(k, n)
    }

    /** The instance holds the lock now, so it did at the commit, if no late bid of its own came between. */
    lemma TrueOfTheCommit(sent: seq<Label>, n: nat)
      requires Ready() && sent != [] && sent[|sent| - 1] == Commit(cluster.me, n) && cluster.Others(sent, cluster.run)
      requires HeldBy(Slot(cluster.sys.db, cluster.site.fleet(cluster.me).lock), cluster.me)
      requires var before := Exec(cluster.site, sent[..|sent| - 1]); MayWrite(LocalOf(before, cluster.me), Watermark(n))
      requires LocalOf(Exec(cluster.site, sent), cluster.me) == At(n)
      ensures CommittedAt(|sent| - 1, n)
    {
      hide Exec, Next, MayWrite, HeldBy;
      var k := |sent| - 1;
      assert cluster.run[k] == sent[k] && cluster.run[..k] == sent[..k] && cluster.run[..k + 1] == sent;
      if !cluster.LateBid(sent) {
        FenceWasOpen(cluster, sent, k);
        CommitReaches(cluster.site, sent[..k], sent, cluster.me, n);
        StillReaches(cluster, sent, n);
      }
    }

    // ----- the lock

    method HoldsLeaderLock() returns (r: Result<bool>)
      requires Ready()
      modifies cluster`sys, cluster`run, cluster`ticks
      ensures old(cluster.ticks) <= cluster.ticks
      ensures r.Err? ==> cluster.FailedSince(old(cluster.ticks))
      ensures Ready() && cluster.Others(old(cluster.run), cluster.run) && cluster.Here() == old(cluster.Here())
      ensures r.Ok? ==> (r.value <==> HeldBy(Slot(cluster.sys.db, cluster.site.fleet(cluster.me).lock), cluster.me))
    {
      var holder := cluster.QueryLockHolder();
      if holder.Err? {
        return Err;
      }
      r := Ok(holder.value == Some(cluster.me));
    }

    /** This instance's bid went in at some moment since, and at a later one this was true of it. */
    ghost predicate Elected(past: seq<Label>, bid: Label, held: bool)
      reads this, cluster
    {
      exists k, m {:trigger cluster.run[k], cluster.run[..m]} ::
        && |past| <= k < m <= |cluster.run| && cluster.run[k] == bid
        && held == HeldBy(Slot(Exec(cluster.site, cluster.run[..m]).db, cluster.site.fleet(cluster.me).lock),
                          cluster.me)
    }

    /** The answer was true of this instance at some moment after its attempt. */
    method TryAcquireLeaderLock(ttl: nat) returns (r: Result<bool>)
      requires Ready()
      modifies this, cluster`sys, cluster`run, cluster`ticks, cluster`abandoned
      ensures old(cluster.ticks) <= cluster.ticks
      ensures r.Err? ==> cluster.FailedSince(old(cluster.ticks))
      ensures Ready() && old(cluster.run) <= cluster.run && cluster.Here() == old(cluster.Here())
      ensures old(cluster.abandoned) <= cluster.abandoned
      ensures r.Ok? ==>
                var t := now(old(clockReads)); Elected(old(cluster.run), Acquire(cluster.me, t, t + ttl), r.value)
      ensures clockReads == old(clockReads) + 1
    {
      hide Exec, Next, Upsert, Elect;
      var t := ReadClock();
      var code := cluster.ExecAcquire(t, ttl);
      if code.Err? {
        return Err;
      }
      ghost var run := cluster.run;
      ghost var k := |run| - 1;
      AcquireElects(cluster.site, run, t, t + ttl, cluster.me, cluster.carried);
      assert run[k] == Acquire(cluster.me, t, t + ttl) && run[..k + 1] == run;
      if code.value == LOCK_TAKEN {
        return Ok(true);
      } else if code.value == LOCK_LOST {
        return Ok(false);
      } else if code.value == LOCK_UNREPORTED {
        r := HoldsLeaderLock();
        assert cluster.run[k] == run[k] && cluster.run[..|cluster.run|] == cluster.run;
      } else {
        assert false;
      }
    }

    method ReleaseLeaderLock() returns (r: Result<()>)
      requires Ready()
      modifies cluster`sys, cluster`run, cluster`ticks, cluster`abandoned
      ensures old(cluster.ticks) <= cluster.ticks
      ensures r.Err? ==> cluster.FailedSince(old(cluster.ticks))
      ensures Ready() && old(cluster.run) <= cluster.run && cluster.Here() == old(cluster.Here())
      ensures old(cluster.abandoned) <= cluster.abandoned
      ensures r.Ok? ==> cluster.Issued(old(cluster.run), cluster.run, Release(cluster.me))
    {
      r := cluster.ExecRelease();
    }

    // ----- reading

    /**
      One page, decoded up to the first row that will not decode. The buffer starts small and
      grows once, straight to the limit, which is always enough.
     */
    method ListMessages(after: nat, limit: nat) returns (r: Result<Listing>)
      requires Ready() && cluster.Here() == At(after)
      modifies cluster`sys, cluster`run, cluster`ticks, journal
      ensures old(cluster.ticks) <= cluster.ticks
      ensures r.Err? ==> cluster.FailedSince(old(cluster.ticks)) || exists n :: !scans(n)
      ensures Ready() && old(cluster.run) <= cluster.run
      ensures journal.Took(ListPage(if r.Ok? then Ok(ReadingOf(r.value)) else Err))
      ensures r.Ok? ==> Holds(cluster.Here(), after, r.value) && |r.value.msgs| <= limit
      ensures r.Ok? ==> cluster.Issued(old(cluster.run), cluster.run, List(cluster.me, limit))
    {
      var rows := cluster.QueryPage(after, limit);
      if rows.Err? {
        journal.Note(ListPage(Err));
        return Err;
      }
      r := DecodeRows(rows.value, limit);
      if r.Ok? {
        DecodedIsThePage(cluster.site, cluster.sys.db.log, rows.value, r.value);
      }
      journal.Note(ListPage(if r.Ok? then Ok(ReadingOf(r.value)) else Err));
    }

    method DecodeRows(rows: seq<(nat, Row)>, limit: nat) returns (r: Result<Listing>)
      requires |rows| <= limit
      ensures r.Ok? ==> IsDecoded(cluster.site, rows, r.value)
      ensures r.Err? ==> exists k :: 0 <= k < |rows| && !scans(rows[k].0)
    {
      var buf := new nat[Min(limit, INITIAL_PAGE_CAP)];
      var n := 0;
      while n < |rows|
        invariant n <= |rows| && n <= buf.Length <= limit
        invariant fresh(buf) && buf[..n] == SeqsOf(rows)[..n]
        invariant forall k :: 0 <= k < n ==> cluster.site.decodable(rows[k].1)
      {
        if n == buf.Length && buf.Length < limit {
          buf := Grown(buf, limit);
        }
        if !scans(rows[n].0) {
          return Err;
        }
        if !cluster.site.decodable(rows[n].1) {
          return Ok(Listing(buf[..n], Some(rows[n].0)));
        }
        buf[n] := rows[n].0;
        n := n + 1;
        assert buf[..n] == buf[..n - 1] + [rows[n - 1].0];
      }
      r := Ok(Listing(buf[..n], None));
    }

    // ----- sequencing and the sweep

    /**
      One pass: on success exactly one sequencing step, or none for an idle log. Fewer rows than
      the limit means that every row pending when the call began has a seq by now; rows that
      commit behind the UPDATE wait for the next pass.
     */
    method SequenceMessages(limit: nat) returns (r: Result<nat>)
      requires Ready()
      modifies cluster`sys, cluster`run, cluster`ticks, cluster`draft, journal
      ensures old(cluster.ticks) <= cluster.ticks
      ensures r.Err? ==> cluster.FailedSince(old(cluster.ticks))
      ensures Ready() && old(cluster.run) <= cluster.run && cluster.Here() == old(cluster.Here())
      ensures journal.Took(SequenceRows(r))
      ensures old(cluster.draft).None? ==> cluster.draft.None?
      ensures r.Ok? ==> r.value <= limit && (r.value < limit ==> cluster.Cleared(old(cluster.run)))
      ensures r.Ok? && r.value > 0 ==> Passed(old(cluster.run), limit, r.value)
    {
      hide Exec, Next;
      var pending := cluster.ProbePending();
      if pending.Err? {
        journal.Note(SequenceRows(Err));
        return Err;
      }
      if !pending.value {
        journal.Note(SequenceRows(Ok(0)));
        return Ok(0);
      }
      ghost var probed := cluster.run;
      r := SequenceLocked(limit);
      if r.Err? {
        cluster.Rollback();
      } else if r.value < limit {
        ClearedEarlier(cluster, old(cluster.run), probed);
      }
      journal.Note(SequenceRows(r));
    }

    /** The run ends in a pass of `n` rows over what was pending at some moment since `past`. */
    ghost predicate Passed(past: seq<Label>, limit: nat, n: nat)
      reads cluster
    {
      && cluster.run != []
      && var k := |cluster.run| - 1;
      && (exists m :: |past| <= m <= k && IsPassOf(limit, cluster.run, k, m) && OldestFirst(cluster.run, k, m))
      && cluster.sys.db.nextSeq == Exec(cluster.site, cluster.run[..k]).db.nextSeq + n
    }

    /** Step `k` is a pass that leaves alone what committed since step `m`. */
    ghost predicate IsPassOf(limit: nat, run: seq<Label>, k: nat, m: nat)
      requires m <= k < |run|
    {
      var before, read := Exec(cluster.site, run[..k]).db.pending, Exec(cluster.site, run[..m]).db.pending;
      read <= before && run[k] == SequencePass(limit, before - read)
    }

    /** Step `k` labelled the oldest rows first, of those there were at step `m`, and left the youngest. */
    ghost predicate OldestFirst(run: seq<Label>, k: nat, m: nat)
      requires m <= k < |run|
    {
      var before, after := Exec(cluster.site, run[..k]), Exec(cluster.site, run[..k + 1]);
      var left := after.db.pending * Exec(cluster.site, run[..m]).db.pending;
      && LabelsInOrder(after.labelled, before.db.nextSeq, after.db.nextSeq)
      && LeavesTheYoungest(after.labelled, before.db.nextSeq, after.db.nextSeq, left)
    }

    method SequenceLocked(limit: nat) returns (r: Result<nat>)
      requires Ready()
      modifies cluster`sys, cluster`run, cluster`ticks, cluster`draft
      ensures old(cluster.ticks) <= cluster.ticks
      ensures r.Err? ==> cluster.FailedSince(old(cluster.ticks))
      ensures Ready() && old(cluster.run) <= cluster.run && cluster.Here() == old(cluster.Here())
      ensures r.Ok? ==> cluster.draft.None?
      ensures r.Ok? ==> r.value <= limit && (r.value < limit ==> cluster.Cleared(old(cluster.run)))
      ensures r.Ok? ==> Passed(old(cluster.run), limit, r.value)
    {
      hide Exec, Labels, Taken, Own, Recorded, MirroredAll, PendingOf, IsPage, NumberPage;
      var next := cluster.LockSequencer();
      if next.Err? {
        return Err;
      }
      var labelled := cluster.AssignSeq(limit, next.value);
      if labelled.Err? {
        return Err;
      }
      ghost var read := cluster.run;
      if labelled.value > 0 {
        var bumped := cluster.BumpSequencer(next.value + labelled.value);
        if bumped.Err? {
          return Err;
        }
      }
      ghost var d := cluster.draft.value;
      ghost var locked := cluster.run;
      var done := cluster.CommitDraft();
      if done.Err? {
        return Err;
      }
      DraftSize(d);
      PassedHere(locked, read, d, limit);
      if labelled.value < limit {
        ClearedByDraft(cluster, old(cluster.run), read, locked, d);
      }
      r := Ok(labelled.value);
    }

    lemma PassedHere(past: seq<Label>, read: seq<Label>, d: Draft, limit: nat)
      requires cluster.Installed(past, d) && read <= past && d.limit == limit
      requires PendingOf(d.table) == Exec(cluster.site, read).db.pending
      ensures Passed(read, limit, |d.seqs|)
    {
      var k, m := |cluster.run| - 1, |read|;
      assert cluster.run[..k][..|past|] == past && cluster.run[..m] == read;
      assert IsPassOf(limit, cluster.run, k, m);
      PassIsOldestFirst(limit, cluster.run, k, m);
    }

    lemma PassIsOldestFirst(limit: nat, run: seq<Label>, k: nat, m: nat)
      requires m <= k < |run| && IsPassOf(limit, run, k, m)
      ensures OldestFirst(run, k, m)
    {
      hide Sequenced, LabelsInOrder, Exec;
      var before, read := Exec(cluster.site, run[..k]), Exec(cluster.site, run[..m]).db.pending;
      assert run[..k + 1] == run[..k] + [run[k]];
      ExecSplits(cluster.site, run[..k], run[k]);
      PassLabelsOldestFirst(before, limit, before.db.pending - read);
      var after := Exec(cluster.site, run[..k + 1]);
      assert after == Sequenced(before, limit, before.db.pending - read);
      assert after.db.pending * read <= after.db.pending - (before.db.pending - read);
    }

    /** Nothing is older than the latest cutoff and behind every group. */
    ghost predicate NothingLeft()
      reads this, cluster
      requires clockReads > 0
    {
      NoneRipe(cluster.site, cluster.sys.db, now(clockReads - 1) - retention)
    }

    method SweepMessages(limit: nat) returns (r: Result<nat>)
      requires Ready()
      modifies this, cluster`sys, cluster`run, cluster`ticks, journal
      ensures old(cluster.ticks) <= cluster.ticks
      ensures r.Err? ==> cluster.FailedSince(old(cluster.ticks))
      ensures Ready() && old(cluster.run) <= cluster.run && cluster.Here() == old(cluster.Here())
      ensures journal.Took(SweepRows(r))
      ensures r.Ok? ==>
                && (exists victims :: && cluster.Issued(old(cluster.run), cluster.run,
                                                        Sweep(victims, now(old(clockReads)) - retention, limit))
                                      && r.value == |victims| <= limit
                                      && cluster.Took(victims, now(old(clockReads)) - retention))
                && (r.value < limit ==> clockReads > 0 && NothingLeft())
    {
      hide Exec, Next, Cluster.Valid, Outside, NoneRipe, Cluster.Took, Cluster.Issued;
      hide Obedient, Lost, Listed, Labelling, Swept, Renewed, Overruns, Failing, Unanswered, Refused, Listings;
      var t := ReadClock();
      r := cluster.ExecSweep(t - retention, limit);
      journal.Note(SweepRows(r));
    }
  }

  /** make + copy: the same messages in a buffer of the page's full size. */
  method Grown(buf: array<nat>, limit: nat) returns (grown: array<nat>)
    requires buf.Length <= limit
    ensures fresh(grown) && grown.Length == limit && grown[..buf.Length] == buf[..]
  {
    grown := new nat[limit];
    for k := 0 to buf.Length
      invariant forall j :: 0 <= j < k ==> grown[j] == buf[j]
      modifies grown
    {
      grown[k] := buf[k];
    }
  }

  /** The protocol's page is this listing, untouched. */
  ghost predicate Holds(l: Local, after: nat, listing: Listing) {
    && l.Page? && l.offset == after && l.done == 0
    && l.decoded == |listing.msgs|
    && l.items == listing.msgs + if listing.poison.Some? then [listing.poison.value] else []
  }

  /** The decoded prefix of the rows, and the row that stopped the decoding. */
  ghost predicate IsDecoded(site: Site, rows: seq<(nat, Row)>, listing: Listing) {
    var n := |listing.msgs|;
    && n <= |rows| && listing.msgs == SeqsOf(rows)[..n]
    && (forall k :: 0 <= k < n ==> site.decodable(rows[k].1))
    && (if n < |rows| then !site.decodable(rows[n].1) && listing.poison == Some(rows[n].0) else listing.poison == None)
  }

  lemma DecodedIsThePage(site: Site, log: map<nat, Row>, rows: seq<(nat, Row)>, listing: Listing)
    requires IsDecoded(site, rows, listing)
    requires forall s :: s in SeqsOf(rows) ==> s in log
    requires forall k :: 0 <= k < |rows| ==> rows[k].0 in log && log[rows[k].0] == rows[k].1
    ensures Readable(site, log, SeqsOf(rows)) == |listing.msgs|
    ensures PageItems(site, log, SeqsOf(rows))
            == listing.msgs + if listing.poison.Some? then [listing.poison.value] else []
  {
    ReadableIs(site, log, rows, |listing.msgs|);
  }

  lemma {:induction false} ReadableIs(site: Site, log: map<nat, Row>, page: seq<(nat, Row)>, n: nat)
    requires n <= |page|
    requires forall s :: s in SeqsOf(page) ==> s in log
    requires forall k :: 0 <= k < |page| ==> page[k].0 in log && log[page[k].0] == page[k].1
    requires forall k :: 0 <= k < n ==> site.decodable(page[k].1)
    requires n < |page| ==> !site.decodable(page[n].1)
    ensures Readable(site, log, SeqsOf(page)) == n
  {
    if n > 0 {
      assert SeqsOf(page)[1..] == SeqsOf(page[1..]);
      ReadableIs(site, log, page[1..], n - 1);
    }
  }

  // ----- what a short pass is worth

  lemma DraftSize(d: Draft)
    requires exists page :: IsPage(d.table, d.limit, page) && d.seqs == NumberPage(page, d.first)
    ensures |d.seqs| <= d.limit
    ensures |d.seqs| < d.limit ==> d.seqs.Keys == PendingOf(d.table)
  {
    var page :| IsPage(d.table, d.limit, page) && d.seqs == NumberPage(page, d.first);
    NumbersItsPage(page, d.first);
    assert d.seqs.Keys == page;
    SubsetSize(page, PendingOf(d.table));
  }

  /** A row that has left the pending rows never comes back to them. */
  lemma LeavesPendingForGood(site: Site, past: seq<Label>, mid: seq<Label>, run: seq<Label>, row: Row)
    requires past <= mid <= run
    requires row in Exec(site, past).db.pending && row !in Exec(site, mid).db.pending
    ensures row !in Exec(site, run).db.pending
  {
    CommittedRowsAreKept(site, past, mid[|past|..], row);
    assert past + mid[|past|..] == mid;
    var n :| n in Exec(site, mid).labelled && Exec(site, mid).labelled[n] == row;
    RunsGrow(site, mid, run[|mid|..]);
    assert mid + run[|mid|..] == run;
    SeqsAreDense(site, run);
  }

  lemma ClearedEarlier(cluster: Cluster, past: seq<Label>, mid: seq<Label>)
    requires cluster.Valid() && past <= mid <= cluster.run && cluster.Cleared(mid)
    ensures cluster.Cleared(past)
  {
    forall row | row in Exec(cluster.site, past).db.pending
      ensures row !in cluster.sys.db.pending
    {
      if row !in Exec(cluster.site, mid).db.pending {
        LeavesPendingForGood(cluster.site, past, mid, cluster.run, row);
      }
    }
  }

  /** A draft of everything its UPDATE read leaves nothing of it pending. */
  lemma ClearedByDraft(cluster: Cluster, past: seq<Label>, read: seq<Label>, locked: seq<Label>, d: Draft)
    requires cluster.Valid() && past <= read <= locked && cluster.Installed(locked, d)
    requires d.seqs.Keys == PendingOf(d.table) == Exec(cluster.site, read).db.pending
    ensures cluster.Cleared(past)
  {
    assert cluster.Cleared(read);
    ClearedEarlier(cluster, past, read);
  }

  // ----- what a commit's answer is worth

  ghost predicate WatermarkReaches(cluster: Cluster, n: nat)
    reads cluster
  {
    Reaches(cluster.sys, cluster.Group(), n)
  }

  lemma CommitReaches(site: Site, before: seq<Label>, after: seq<Label>, i: nat, n: nat)
    requires after != [] && before == after[..|after| - 1] && after[|after| - 1] == Commit(i, n)
    requires FenceOpen(site, Exec(site, before).db, i)
    requires MayWrite(LocalOf(Exec(site, before), i), Watermark(n))
    ensures Reaches(Exec(site, after), site.fleet(i).group, n)
  {
    CommitReachesAtOnce(site, before, i, n);
    assert before + [Commit(i, n)] == after;
  }

  lemma FenceWasOpen(cluster: Cluster, run: seq<Label>, k: nat)
    requires cluster.Valid() && run != [] && k == |run| - 1 && cluster.Others(run, cluster.run)
    requires run[k].Commit? && !cluster.LateBid(run)
    requires HeldBy(Slot(cluster.sys.db, cluster.site.fleet(cluster.me).lock), cluster.me)
    ensures FenceOpen(cluster.site, Exec(cluster.site, run[..k]).db, cluster.me)
    ensures HeldBy(Slot(Exec(cluster.site, run[..k]).db, cluster.site.fleet(cluster.me).lock), cluster.me)
  {
    var more := cluster.run[k..];
    assert run[..k] + more == cluster.run;
    forall j | 0 <= j < |more|
      ensures !Acquires(more[j], cluster.me)
    {
      assert more[j] == cluster.run[k + j];
      assert j == 0 ==> more[j] == run[k];
    }
    HolderWasHolder(cluster.site, run[..k], more, cluster.me);
  }

  /** Watermarks only rise, so what a commit reached stays reached. */
  lemma StillReaches(cluster: Cluster, run: seq<Label>, n: nat)
    requires cluster.Valid() && run <= cluster.run
    requires Reaches(Exec(cluster.site, run), cluster.Group(), n)
    ensures WatermarkReaches(cluster, n)
  {
    RunsGrow(cluster.site, run, cluster.run[|run|..]);
    assert run + cluster.run[|run|..] == cluster.run;
  }

  lemma AcquireElects(site: Site, run: seq<Label>, now: int, deadline: int, i: nat, carried: bool)
    requires run != [] && run[|run| - 1] == Acquire(i, now, deadline)
    ensures var before := Slot(Exec(site, run[..|run| - 1]).db, site.fleet(i).lock);
            var after := Slot(Exec(site, run).db, site.fleet(i).lock);
            && after == Upsert(before, i, deadline, now, carried).0
            && Upsert(before, i, deadline, now, carried).1 in {LOCK_UNREPORTED, LOCK_TAKEN, LOCK_LOST}
            && (Upsert(before, i, deadline, now, carried).1 == LOCK_TAKEN ==> HeldBy(after, i))
            && (Upsert(before, i, deadline, now, carried).1 == LOCK_LOST ==> !HeldBy(after, i))
  {
    UpsertIsElect(Slot(Exec(site, run[..|run| - 1]).db, site.fleet(i).lock), i, deadline, now, carried);
  }
}
