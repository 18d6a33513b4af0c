/** The database and the downstream's record as one relay instance meets them. */
module Clusters {
  import opened Prelude
  import opened Sequencing
  import opened Leases
  import opened LogProtocol
  import opened LogSafety
  import opened LogTheorems
  import opened Lanes

  /**
    The sequencing transaction before its COMMIT: the counter it locked, the table its UPDATE
    read, the seqs that UPDATE set, and the counter it will leave.
   */
  datatype Draft = Draft(first: nat, table: set<Cell>, limit: nat, seqs: map<Row, int>, next: nat)

  /**
    The shared state seen through instance `me`. Before each of its statements the others take
    any steps they like; each statement is one label of the protocol, and `run` is the protocol
    run so far. What the environment decides is read off functions fixed beforehand. A statement
    that fails has been given up on: it may never land, or land among any later moves.
   */
  class Cluster {
    const site: Site
    const me: nat
    const rivals: nat -> seq<Label>
    const fails: nat -> bool          // the k-th statement returns an error
    const applies: nat -> bool        // ... although the transaction or the sweep took effect
    const stamps: nat -> bool         // the k-th upsert also changes update_time
    const page: nat -> set<Row>       // the rows the k-th inner SELECT returns
    const prey: nat -> set<nat>       // the rows the k-th sweep would rather pick
    const carried: bool               // LAST_INSERT_ID(expr) reaches the client
    const foundRows: bool             // the connection counts matched rows
    var sys: Sys
    var draft: Option<Draft>
    var abandoned: set<Label>         // the statements given up on, as the steps they would be
    var ticks: nat
    ghost var run: seq<Label>
    ghost var delivered: seq<Event<nat>>   // what `Mirror` was given, and nothing else

    /** A run of the protocol, whose deliveries by `me` are exactly those mirrored. */
    ghost predicate Valid()
      reads this
    {
      && sys == Exec(site, run) && !LocalOf(sys, me).Dead?
      && (forall l :: l in abandoned ==> IsLate(l, me) && (l.Land? ==> (me, l.write) in sys.late))
      && Own(run, me) == MirroredAll(delivered, me)
      && Recorded(sys, Group(), delivered)
    }

    constructor (site: Site, me: nat, rivals: nat -> seq<Label>, fails: nat -> bool, applies: nat -> bool,
                 stamps: nat -> bool, page: nat -> set<Row>, prey: nat -> set<nat>, carried: bool, foundRows: bool)
      ensures Valid() && this.site == site && this.me == me && run == [] && delivered == []
      ensures draft == None && abandoned == {}
    {
      this.site, this.me, this.rivals := site, me, rivals;
      this.fails, this.applies, this.stamps, this.page, this.prey := fails, applies, stamps, page, prey;
      this.carried, this.foundRows := carried, foundRows;
      sys, draft, abandoned, ticks, run, delivered := INIT, None, {}, 0, [], [];
    }

    function Group(): nat { site.fleet(me).group }

    function Here(): Local
      reads this
    {
      LocalOf(sys, me)
    }

    // ----- steps

    /** `after` is what step `l` makes of the state. */
    method Become(l: Label, after: Sys)
      requires Valid() && l != Crash(me) && !Delivers(l, me) && after == Next(site, sys, l)
      modifies this`sys, this`run
      ensures Valid() && sys == after && run == old(run) + [l]
    {
      assert (run + [l])[..|run|] == run;
      DiesOnlyByCrash(site, sys, l, me);
      HistoryGrows(site, sys, l);
      sys := after;
      run := run + [l];
    }

    method Do(l: Label)
      requires Valid() && l != Crash(me) && !Delivers(l, me)
      modifies this`sys, this`run
      ensures Valid() && sys == Next(site, old(sys), l) && run == old(run) + [l]
    {
      Become(l, Next(site, sys, l));
    }

    method Watch(l: Label)
      requires Valid() && Outside(l, me, abandoned)
      modifies this`sys, this`run
      ensures Valid() && run == old(run) + [l] && Here() == old(Here())
    {
      StandsStill(site, sys, l, me);
      Do(l);
    }

    /** The others move, and what this instance gave up on may land; the instance itself does not move. */
    method Interfere()
      requires Valid()
      modifies this`sys, this`run, this`ticks
      ensures old(ticks) <= ticks
      ensures Valid() && Others(old(run), run) && Here() == old(Here())
    {
      var moves := rivals(ticks);
      ticks := ticks + 1;
      for k := 0 to |moves|
        invariant Valid() && Others(old(run), run) && Here() == old(Here()) && old(ticks) < ticks
      {
        if Outside(moves[k], me, abandoned) {
          Watch(moves[k]);
        }
      }
    }

    /** `after` extends `before` by steps of the others, and by statements given up on. */
    ghost predicate Others(before: seq<Label>, after: seq<Label>)
      reads this`abandoned
    {
      before <= after && forall k :: |before| <= k < |after| ==> Outside(after[k], me, abandoned)
    }

    /** A bid this instance gave up on has landed since. */
    ghost predicate LateBid(past: seq<Label>)
      reads this
    {
      exists k :: |past| <= k < |run| && Acquires(run[k], me) && run[k] in abandoned
    }

    /** A statement has failed since. */
    ghost predicate FailedSince(tick: nat)
      reads this
    {
      exists k :: tick <= k <= ticks && fails(k)
    }

    /** The others moved, and then this instance took step `l`. */
    ghost predicate Issued(before: seq<Label>, after: seq<Label>, l: Label)
      reads this`abandoned
    {
      after != [] && after[|after| - 1] == l && Others(before, after[..|after| - 1])
    }

    method Issue(l: Label)
      requires Valid() && l != Crash(me) && !Delivers(l, me)
      modifies this`sys, this`run, this`ticks
      ensures old(ticks) <= ticks
      ensures Valid() && Issued(old(run), run, l)
      ensures sys == Next(site, Exec(site, run[..|run| - 1]), l)
      ensures LocalOf(Exec(site, run[..|run| - 1]), me) == old(Here())
    {
      Interfere();
      Do(l);
    }

    /** The statement is given up on: from here on it may land. */
    method GiveUp(l: Label)
      requires Valid() && IsLate(l, me) && (l.Land? ==> (me, l.write) in sys.late)
      modifies this`sys, this`run, this`ticks, this`abandoned
      ensures old(ticks) <= ticks
      ensures Valid() && Others(old(run), run) && Here() == old(Here()) && abandoned == old(abandoned) + {l}
    {
      abandoned := abandoned + {l};
      Interfere();
    }

    /** A write given up on is one the protocol remembers. */
    method Abandon(w: Write)
      requires Valid() && MayWrite(Here(), w)
      modifies this`sys, this`run, this`ticks, this`abandoned
      ensures old(ticks) <= ticks
      ensures Valid() && old(run) <= run && Here() == old(Here()) && abandoned == old(abandoned) + {Land(me, w)}
    {
      Do(Label.Abandon(me, w));
      GiveUp(Land(me, w));
    }

    // ----- offsets

    /** This is what the group's row says. */
    predicate Reads(offset: Option<nat>)
      reads this
    {
      if Group() in sys.db.offsets then offset == Some(sys.db.offsets[Group()]) else offset == None
    }

    method QueryOffset() returns (r: Result<Option<nat>>)
      requires Valid() && (Here().Idle? || Here().Registering?)
      modifies this`sys, this`run, this`ticks
      ensures old(ticks) <= ticks && (r.Err? ==> FailedSince(old(ticks)))
      ensures Valid() && old(run) <= run
      ensures r.Ok? ==> Issued(old(run), run, ReadOffset(me))
      ensures r.Ok? ==> Here() == (if r.value.Some? then At(r.value.value) else Unregistered) && Reads(r.value)
    {
      if fails(ticks) {
        Interfere();
        return Err;
      }
      Issue(ReadOffset(me));
      r := Ok(if Here().At? then Some(Here().offset) else None);
    }

    /** INSERT ... SELECT MAX(seq); a duplicate key counts as done. */
    method ExecInitOffset() returns (r: Result<()>)
      requires Valid() && Here().Unregistered?
      modifies this`sys, this`run, this`ticks, this`abandoned
      ensures old(ticks) <= ticks && (r.Err? ==> FailedSince(old(ticks)))
      ensures Valid() && old(run) <= run && old(abandoned) <= abandoned
      ensures r.Ok? ==> LocalOf(Exec(site, run[..|run| - 1]), me) == old(Here())
      ensures if r.Ok? then Issued(old(run), run, RegisterLatest(me)) && Here() == Registering
              else Land(me, Newest) in abandoned
    {
      if fails(ticks) {
        Abandon(Newest);
        return Err;
      }
      Issue(RegisterLatest(me));
      r := Ok(());
    }

    /** The instance may write this seq. */
    predicate Committable(n: nat)
      reads this
    {
      MayWrite(Here(), Watermark(n))
    }

    /**
      The watermark upsert, with its affected-row count: 0 when the fence is closed, and also
      when an open fence changed nothing.
     */
    method ExecCommit(n: nat) returns (r: Result<nat>)
      requires Valid() && Committable(n)
      modifies this`sys, this`run, this`ticks, this`abandoned
      ensures old(ticks) <= ticks && (r.Err? ==> FailedSince(old(ticks)))
      ensures Valid() && old(run) <= run && old(abandoned) <= abandoned
      ensures if r.Ok? then Issued(old(run), run, Commit(me, n)) && Here() == At(n) && abandoned == old(abandoned)
              else Land(me, Watermark(n)) in abandoned
      ensures r.Ok? ==>
                var before := Exec(site, run[..|run| - 1]);
                && LocalOf(before, me) == old(Here())
                && (r.value > 0 ==> FenceOpen(site, before.db, me))
    {
      if fails(ticks) {
        Abandon(Watermark(n));
        return Err;
      }
      Interfere();
      var db := sys.db;
      var stamped := stamps(ticks);
      Do(Commit(me, n));
      if !FenceOpen(site, db, me) {
        return Ok(0);
      } else if Group() !in db.offsets {
        return Ok(1);
      } else if sys.db.offsets[Group()] != db.offsets[Group()] || stamped {
        return Ok(2);
      } else {
        return Ok(if foundRows then 1 else 0);
      }
    }

    // ----- the lock

    method QueryLockHolder() returns (r: Result<Option<nat>>)
      requires Valid()
      modifies this`sys, this`run, this`ticks
      ensures old(ticks) <= ticks && (r.Err? ==> FailedSince(old(ticks)))
      ensures Valid() && Others(old(run), run) && Here() == old(Here())
      ensures r.Ok? ==> r.value == HolderOf(Slot(sys.db, site.fleet(me).lock))
    {
      var failed := fails(ticks);
      Interfere();
      r := if failed then Err else Ok(HolderOf(Slot(sys.db, site.fleet(me).lock)));
    }

    /** The election upsert on this instance's own clock. */
    method ExecAcquire(now: int, ttl: nat) returns (r: Result<int>)
      requires Valid()
      modifies this`sys, this`run, this`ticks, this`abandoned
      ensures old(ticks) <= ticks && (r.Err? ==> FailedSince(old(ticks)))
      ensures Valid() && old(run) <= run && Here() == old(Here()) && old(abandoned) <= abandoned
      ensures r.Err? ==> Acquire(me, now, now + ttl) in abandoned
      ensures r.Ok? ==>
                && Issued(old(run), run, Acquire(me, now, now + ttl))
                && var before := Slot(Exec(site, run[..|run| - 1]).db, site.fleet(me).lock);
                   r.value == Upsert(before, me, now + ttl, now, carried).1
    {
      if fails(ticks) {
        GiveUp(Acquire(me, now, now + ttl));
        return Err;
      }
      Interfere();
      r := Ok(Upsert(Slot(sys.db, site.fleet(me).lock), me, now + ttl, now, carried).1);
      Do(Acquire(me, now, now + ttl));
    }

    method ExecRelease() returns (r: Result<()>)
      requires Valid()
      modifies this`sys, this`run, this`ticks, this`abandoned
      ensures old(ticks) <= ticks && (r.Err? ==> FailedSince(old(ticks)))
      ensures Valid() && old(run) <= run && Here() == old(Here()) && old(abandoned) <= abandoned
      ensures if r.Ok? then Issued(old(run), run, Release(me)) else Release(me) in abandoned
    {
      if fails(ticks) {
        GiveUp(Release(me));
        return Err;
      }
      Issue(Release(me));
      r := Ok(());
    }

    // ----- reading a page

    method QueryPage(after: nat, limit: nat) returns (r: Result<seq<(nat, Row)>>)
      requires Valid() && Here() == At(after)
      modifies this`sys, this`run, this`ticks
      ensures old(ticks) <= ticks && (r.Err? ==> FailedSince(old(ticks)))
      ensures Valid() && old(run) <= run
      ensures r.Ok? ==> |r.value| <= limit && IsPageOf(r.value, after)
      ensures r.Ok? ==> Issued(old(run), run, List(me, limit))
    {
      hide Exec, Next, Cluster.Valid, Outside, PageItems, Readable;
      if fails(ticks) {
        Interfere();
        return Err;
      }
      Issue(List(me, limit));
      ListMoves(site, Exec(site, run[..|run| - 1]), me, limit);
      var seqs := ListFrom(sys.db.log, after + 1, sys.db.nextSeq, limit);
      r := Ok(RowsAt(sys.db.log, seqs));
    }

    /** The rows are the page the protocol now works on. */
    ghost predicate IsPageOf(rows: seq<(nat, Row)>, after: nat)
      reads this
    {
      && (forall k :: 0 <= k < |rows| ==> rows[k].0 in sys.db.log && sys.db.log[rows[k].0] == rows[k].1)
      && (forall s :: s in SeqsOf(rows) ==> s in sys.db.log)
      && Here() == Page(after, PageItems(site, sys.db.log, SeqsOf(rows)), Readable(site, sys.db.log, SeqsOf(rows)), 0)
    }

    /** Every row that was pending after `past` has a seq by now. */
    ghost predicate Cleared(past: seq<Label>)
      reads this
    {
      Exec(site, past).db.pending !! sys.db.pending
    }

    // ----- the sequencing transaction: its statements run on a draft, its COMMIT is the step

    method ProbePending() returns (r: Result<bool>)
      requires Valid()
      modifies this`sys, this`run, this`ticks
      ensures old(ticks) <= ticks && (r.Err? ==> FailedSince(old(ticks)))
      ensures Valid() && Others(old(run), run) && Here() == old(Here())
      ensures r.Ok? ==> (r.value <==> sys.db.pending != {})
    {
      var failed := fails(ticks);
      Interfere();
      r := if failed then Err else Ok(sys.db.pending != {});
    }

    /** Behind the locked counter row the others do anything but sequence; rows keep committing. */
    method InterfereLocked()
      requires Valid()
      modifies this`sys, this`run, this`ticks
      ensures old(ticks) <= ticks
      ensures Valid() && Others(old(run), run) && Here() == old(Here())
      ensures sys.db.nextSeq == old(sys.db.nextSeq) && old(sys.db.pending) <= sys.db.pending
    {
      var moves := rivals(ticks);
      ticks := ticks + 1;
      for k := 0 to |moves|
        invariant Valid() && Others(old(run), run) && Here() == old(Here()) && old(ticks) < ticks
        invariant sys.db.nextSeq == old(sys.db.nextSeq) && old(sys.db.pending) <= sys.db.pending
      {
        if Outside(moves[k], me, abandoned) && !moves[k].SequencePass? {
          KeepsTheCounter(site, sys, moves[k]);
          Watch(moves[k]);
        }
      }
    }

    /** The transaction still holds the counter row it locked. */
    predicate Locked()
      reads this
    {
      draft.Some? && draft.value.first == sys.db.nextSeq
    }

    /** The UPDATE's derived table was a page of the table it read, and numbered from the counter. */
    ghost predicate Numbered(d: Draft)
      reads this
    {
      && PendingOf(d.table) <= sys.db.pending
      && exists page :: IsPage(d.table, d.limit, page) && d.seqs == NumberPage(page, d.first)
    }

    /** BEGIN PESSIMISTIC and SELECT ... FOR UPDATE. */
    method LockSequencer() returns (r: Result<nat>)
      requires Valid()
      modifies this`sys, this`run, this`ticks, this`draft
      ensures old(ticks) <= ticks && (r.Err? ==> FailedSince(old(ticks)))
      ensures Valid() && Others(old(run), run) && Here() == old(Here())
      ensures r.Ok? ==> Locked() && r.value == draft.value.first == draft.value.next
    {
      var failed := fails(ticks);
      Interfere();
      if failed {
        return Err;
      }
      draft := Some(Draft(sys.db.nextSeq, {}, 0, map[], sys.db.nextSeq));
      r := Ok(sys.db.nextSeq);
    }

    /** The UPDATE as written: it numbers whatever page its inner SELECT returns. */
    method AssignSeq(limit: nat, next: nat) returns (r: Result<nat>)
      requires Valid() && Locked() && next == draft.value.first
      modifies this`sys, this`run, this`ticks, this`draft
      ensures old(ticks) <= ticks && (r.Err? ==> FailedSince(old(ticks)))
      ensures Valid() && Others(old(run), run) && Here() == old(Here())
      ensures r.Ok? ==>
                && Locked() && Numbered(draft.value) && draft.value.limit == limit
                && r.value == |draft.value.seqs| && draft.value.next == draft.value.first == next
                && PendingOf(draft.value.table) == sys.db.pending
                && old(sys.db.pending) <= sys.db.pending
    {
      InterfereLocked();
      if fails(ticks) {
        return Err;
      }
      var table := TableOf(sys.db);
      PendingOfTable(sys.db);
      var rows := page(ticks);
      if !IsPage(table, limit, rows) {
        rows := RowsOf(Taken(sys.db.pending, limit));
        TakenIsAPage(table, limit);
      }
      NumbersItsPage(rows, next);
      draft := Some(draft.value.(table := table, limit := limit, seqs := NumberPage(rows, next), next := next));
      r := Ok(|draft.value.seqs|);
    }

    method BumpSequencer(next: nat) returns (r: Result<()>)
      requires Valid() && Locked()
      modifies this`sys, this`run, this`ticks, this`draft
      ensures old(ticks) <= ticks && (r.Err? ==> FailedSince(old(ticks)))
      ensures Valid() && Others(old(run), run) && Here() == old(Here())
      ensures Locked() && old(sys.db.pending) <= sys.db.pending
      ensures draft == if r.Ok? then Some(old(draft.value).(next := next)) else old(draft)
    {
      InterfereLocked();
      if fails(ticks) {
        return Err;
      }
      draft := Some(draft.value.(next := next));
      r := Ok(());
    }

    /** The run now ends in the step this draft stands for. */
    ghost predicate Installed(past: seq<Label>, d: Draft)
      reads this
    {
      && run != [] && Others(past, run[..|run| - 1])
      && var before := Exec(site, run[..|run| - 1]).db;
      && PendingOf(d.table) <= before.pending
      && run[|run| - 1] == SequencePass(d.limit, Late(before, d))
      && sys.db.pending == before.pending - d.seqs.Keys
      && sys.db.nextSeq == before.nextSeq + |d.seqs|
    }

    /** COMMIT: what the UPDATE wrote becomes visible, behind whatever else has committed. */
    method CommitDraft() returns (r: Result<()>)
      requires Valid() && Locked() && Numbered(draft.value)
      requires draft.value.next == draft.value.first + |draft.value.seqs|
      modifies this`sys, this`run, this`ticks, this`draft
      ensures old(ticks) <= ticks && (r.Err? ==> FailedSince(old(ticks)))
      ensures Valid() && draft == None && Here() == old(Here()) && old(run) <= run
      ensures r.Ok? ==> Installed(old(run), old(draft.value))
    {
      hide Exec, Next, IsPage, NumberPage, Recorded, PendingOf, Own, MirroredAll, Late, IsLate, Outside;
      InterfereLocked();
      var d := draft.value;
      draft := None;
      if fails(ticks) && !applies(ticks) {
        return Err;
      }
      ghost var mid := run;
      Install(d);
      assert run[..|run| - 1] == mid;
      r := if fails(ticks) then Err else Ok(());
    }

    /** The draft's rows and counter, at the moment they become everyone's. */
    method Install(d: Draft)
      requires Valid() && Numbered(d) && d.first == sys.db.nextSeq && d.next == d.first + |d.seqs|
      modifies this`sys, this`run
      ensures Valid() && Here() == old(Here()) && run == old(run) + [SequencePass(d.limit, Late(old(sys.db), d))]
      ensures sys.db.pending == old(sys.db.pending) - d.seqs.Keys
      ensures sys.db.nextSeq == old(sys.db.nextSeq) + |d.seqs|
    {
      hide Exec, Next, Taken, Labels, IsPage, NumberPage, Recorded, PendingOf, Own, MirroredAll, Inverts, Late, IsLate;
      DraftNumbersTaken(d);
      var labels := Written(d.seqs);
      var l := SequencePass(d.limit, Late(sys.db, d));
      CommitIsThePass(site, sys, d, labels);
      StandsStill(site, sys, l, me);
      Become(l, Committed(sys, d.seqs.Keys, labels, d.next));
    }

    method Rollback()
      requires Valid()
      modifies this`draft
      ensures Valid() && draft == None
    {
      draft := None;
    }

    // ----- the sweep

    /** The latest step deleted these rows and no others, and each was ripe. */
    ghost predicate Took(victims: set<nat>, cutoff: int)
      reads this
    {
      && run != []
      && var before := Exec(site, run[..|run| - 1]).db;
      && (forall n :: n in victims ==> Ripe(site, before, n, cutoff))
      && sys.db.log == before.log - victims
    }

    /** A batch below the limit leaves nothing to delete. */
    method ExecSweep(cutoff: int, limit: nat) returns (r: Result<nat>)
      requires Valid()
      modifies this`sys, this`run, this`ticks
      ensures old(ticks) <= ticks && (r.Err? ==> FailedSince(old(ticks)))
      ensures Valid() && old(run) <= run && Here() == old(Here())
      ensures r.Ok? ==>
                && (exists victims :: && Issued(old(run), run, Sweep(victims, cutoff, limit))
                                      && r.value == |victims| <= limit && Took(victims, cutoff))
                && (r.value < limit ==> NoneRipe(site, sys.db, cutoff))
    {
      hide Exec, Own, MirroredAll, Recorded, Outside;
      var failed, applied := fails(ticks), applies(ticks);
      Interfere();
      if failed && !applied {
        return Err;
      }
      var victims := Pick(prey(ticks) * Deletable(site, sys.db, cutoff), Deletable(site, sys.db, cutoff), limit);
      SweepLeaves(site, sys, victims, cutoff, limit);
      ghost var before := run;
      Do(Sweep(victims, cutoff, limit));
      assert run[..|run| - 1] == before;
      r := if failed then Err else Ok(|victims|);
    }

    // ----- deliveries

    /** Records what happened downstream, one event a step. */
    method Mirror(events: seq<Event<nat>>)
      requires Valid() && Fits(Here(), site.fleet(me).batching, events)
      modifies this`sys, this`run, this`ticks, this`delivered
      ensures old(ticks) <= ticks
      ensures Valid() && old(run) <= run
      ensures delivered == old(delivered) + events
      ensures Here() == Absorb(old(Here()), events)
    {
      var i := 0;
      while i < |events|
        invariant i <= |events|
        invariant Valid() && old(run) <= run && delivered == old(delivered) + events[..i] && old(ticks) <= ticks
        invariant Fits(Here(), site.fleet(me).batching, events[i..])
        invariant Absorb(Here(), events[i..]) == Absorb(old(Here()), events)
      {
        assert events[i..][1..] == events[i + 1..] && events[..i + 1] == events[..i] + [events[i]];
        Deliver(events[i]);
        i := i + 1;
      }
      assert events[..i] == events;
    }

    /** One event, behind whatever the others do first. */
    method Deliver(e: Event<nat>)
      requires Valid() && Enabled(Here(), site.fleet(me).batching, e)
      modifies this`sys, this`run, this`ticks, this`delivered
      ensures old(ticks) <= ticks
      ensures Valid() && old(run) <= run
      ensures delivered == old(delivered) + [e]
      ensures Here() == if e.Reached? then old(Here()) else old(Here()).(done := old(Here()).done + 1)
    {
      Interfere();
      var l := Mirrored(e, me);
      HistoryGrows(site, sys, l);
      assert (run + [l])[..|run|] == run;
      assert MirroredAll(delivered + [e], me) == MirroredAll(delivered, me) + [l];
      sys := Next(site, sys, l);
      run := run + [l];
      delivered := delivered + [e];
    }

    /** The pass is over; its locals are gone. */
    method EndPass()
      requires Valid()
      modifies this`sys, this`run
      ensures Valid() && old(run) <= run && Here().Idle?
    {
      Do(Finish(me));
    }
  }

  // ----- the deliveries of a run

  predicate Delivers(l: Label, i: nat) {
    (l.Reach? || l.Settle?) && l.who == i
  }

  /** The deliveries of instance `i` in a run, in order. */
  ghost function Own(run: seq<Label>, i: nat): seq<Label> {
    if run == [] then []
    else Own(run[..|run| - 1], i) + if Delivers(run[|run| - 1], i) then [run[|run| - 1]] else []
  }

  function Mirrored(e: Event<nat>, i: nat): Label {
    if e.Reached? then Reach(i, e.pos) else Settle(i, e.pos)
  }

  function MirroredAll(events: seq<Event<nat>>, i: nat): seq<Label> {
    seq(|events|, k requires 0 <= k < |events| => Mirrored(events[k], i))
  }

  /** The protocol's history holds every one of these events. */
  ghost predicate Recorded(s: Sys, g: nat, events: seq<Event<nat>>) {
    forall k :: 0 <= k < |events| ==>
      (g, events[k].pos) in s.touched && (!events[k].Reached? ==> (g, events[k].pos) in s.confirmed)
  }

  lemma HistoryGrows(site: Site, s: Sys, l: Label)
    ensures s.touched <= Next(site, s, l).touched && s.confirmed <= Next(site, s, l).confirmed
    ensures s.late <= Next(site, s, l).late
  {
  }

  /** A step of `i` in the run is one of its deliveries. */
  lemma {:induction false} OwnHolds(run: seq<Label>, i: nat, k: nat)
    requires k < |run| && Delivers(run[k], i)
    ensures run[k] in Own(run, i)
  {
    if k < |run| - 1 {
      OwnHolds(run[..|run| - 1], i, k);
    }
  }

  // ----- the UPDATE, and what its COMMIT makes visible

  function TableOf(db: Db): set<Cell> {
    (set r | r in db.pending :: Cell(None, r)) + (set n | n in db.log :: Cell(Some(n), db.log[n]))
  }

  lemma PendingOfTable(db: Db)
    ensures PendingOf(TableOf(db)) == db.pending
  {
    forall r | r in db.pending
      ensures r in PendingOf(TableOf(db))
    {
      assert Cell(None, r) in TableOf(db);
    }
  }

  lemma TakenIsAPage(table: set<Cell>, limit: nat)
    ensures IsPage(table, limit, RowsOf(Taken(PendingOf(table), limit)))
  {
    var pending := PendingOf(table);
    var q := Taken(pending, limit);
    SizeOfRows(q);
    var all := Sorted(pending);
    forall a, b | a in RowsOf(q) && b in pending && b !in RowsOf(q)
      ensures CellBefore(Cell(None, a), Cell(None, b))
    {
      var j :| 0 <= j < |q| && q[j] == a;
      var k :| 0 <= k < |all| && all[k] == b;
      assert forall i :: 0 <= i < |q| ==> all[i] in RowsOf(q);
      assert Before(all[j], all[k]);
    }
  }

  lemma {:induction false} SizeOfRows(q: seq<Row>)
    requires forall i, j :: 0 <= i < j < |q| ==> Before(q[i], q[j])
    ensures |RowsOf(q)| == |q|
  {
    if q != [] {
      var init, last := q[..|q| - 1], q[|q| - 1];
      SizeOfRows(init);
      assert last !in RowsOf(init);
      assert RowsOf(q) == RowsOf(init) + {last};
    }
  }

  lemma NumbersItsPage(rows: set<Row>, next: nat)
    ensures |NumberPage(rows, next)| == |rows|
  {
    assert NumberPage(rows, next).Keys == rows;
  }

  /** The pass's rows, and the seq the UPDATE gave each. */
  lemma DraftNumbersTaken(d: Draft)
    requires exists page :: IsPage(d.table, d.limit, page) && d.seqs == NumberPage(page, d.first)
    ensures var q := Taken(PendingOf(d.table), d.limit);
            && d.seqs.Keys == RowsOf(q) && |d.seqs| == |q|
            && (forall k :: 0 <= k < |q| ==> d.seqs[q[k]] == d.first + k)
            && (forall r :: r in d.seqs ==> d.seqs[r] >= d.first)
  {
    hide Taken, IsPage, NumberPage, RowNumber;
    var page :| IsPage(d.table, d.limit, page) && d.seqs == NumberPage(page, d.first);
    var q := Taken(PendingOf(d.table), d.limit);
    RewriteKeepsEverySeq(d.table, d.limit, d.first, page);
    PassNumbersTaken(PendingOf(d.table), d.limit, d.first);
    SizeOfRows(q);
    assert d.seqs.Keys == RowsOf(q);
  }

  /** `labels` puts every row under the seq it was given. */
  ghost predicate Inverts(labels: map<nat, Row>, seqs: map<Row, int>) {
    && (forall r :: r in seqs ==> seqs[r] >= 0 && seqs[r] in labels)
    && (forall n :: n in labels ==> labels[n] in seqs && seqs[labels[n]] == n)
  }

  /** SET o.seq, row by row, in whatever order the join meets the rows. */
  method Written(seqs: map<Row, int>) returns (labels: map<nat, Row>)
    requires forall r :: r in seqs ==> seqs[r] >= 0
    ensures Inverts(labels, seqs)
  {
    labels := map[];
    var rest := seqs.Keys;
    while rest != {}
      invariant rest <= seqs.Keys
      invariant forall r :: r in seqs && r !in rest ==> seqs[r] in labels
      invariant forall n :: n in labels ==> labels[n] in seqs && seqs[labels[n]] == n
      decreases |rest|
    {
      var r :| r in rest;
      labels := labels[seqs[r] := r];
      rest := rest - {r};
    }
  }

  /** The state a COMMIT leaves: these rows under these seqs, and the counter moved. */
  function Committed(s: Sys, rows: set<Row>, labels: map<nat, Row>, next: nat): Sys {
    s.(db := s.db.(pending := s.db.pending - rows, log := s.db.log + labels, nextSeq := next),
       labelled := s.labelled + labels)
  }

  /** What the UPDATE wrote, seen at the COMMIT, is the protocol's pass over the rows it read. */
  lemma CommitIsThePass(site: Site, s: Sys, d: Draft, labels: map<nat, Row>)
    requires d.first == s.db.nextSeq && d.next == d.first + |d.seqs| && PendingOf(d.table) <= s.db.pending
    requires exists page :: IsPage(d.table, d.limit, page) && d.seqs == NumberPage(page, d.first)
    requires Inverts(labels, d.seqs)
    ensures Next(site, s, SequencePass(d.limit, Late(s.db, d))) == Committed(s, d.seqs.Keys, labels, d.next)
  {
    hide Taken, Labels, IsPage, NumberPage, Inverts, PendingOf, RowsOf, Sequenced, Next, Committed, Late;
    DraftLabels(d, labels);
    RestOfLate(s.db, d);
    PassCommits(site, s, d.limit, Late(s.db, d), Taken(PendingOf(d.table), d.limit));
  }

  lemma DraftLabels(d: Draft, labels: map<nat, Row>)
    requires exists page :: IsPage(d.table, d.limit, page) && d.seqs == NumberPage(page, d.first)
    requires Inverts(labels, d.seqs)
    ensures var q := Taken(PendingOf(d.table), d.limit);
            d.seqs.Keys == RowsOf(q) && |d.seqs| == |q| && labels == Labels(q, d.first)
  {
    hide Taken, Labels, IsPage, NumberPage, Inverts, PendingOf, RowsOf;
    DraftNumbersTaken(d);
    InverseOfNumbering(Taken(PendingOf(d.table), d.limit), d.first, d.seqs, labels);
  }

  /** The rows that committed behind the UPDATE. */
  function Late(db: Db, d: Draft): set<Row> {
    db.pending - PendingOf(d.table)
  }

  lemma RestOfLate(db: Db, d: Draft)
    requires PendingOf(d.table) <= db.pending
    ensures db.pending - Late(db, d) == PendingOf(d.table)
  {
  }

  lemma PassCommits(site: Site, s: Sys, limit: nat, late: set<Row>, q: seq<Row>)
    requires q == Taken(s.db.pending - late, limit)
    ensures Next(site, s, SequencePass(limit, late))
            == Committed(s, RowsOf(q), Labels(q, s.db.nextSeq), s.db.nextSeq + |q|)
  {
  }

  lemma InverseOfNumbering(q: seq<Row>, first: nat, seqs: map<Row, int>, labels: map<nat, Row>)
    requires seqs.Keys == RowsOf(q) && forall k :: 0 <= k < |q| ==> seqs[q[k]] == first + k
    requires Inverts(labels, seqs)
    ensures labels == Labels(q, first)
  {
    var want := Labels(q, first);
    forall n: nat
      ensures n in labels <==> n in want
      ensures n in labels ==> labels[n] == want[n]
    {
      if n in want {
        assert seqs[q[n - first]] == n;
      }
      if n in labels {
        var k :| 0 <= k < |q| && q[k] == labels[n];
        assert n == first + k;
      }
    }
  }

  // ----- the sweep's choice

  /** A row created before the cutoff that every group has committed past, where there is a group. */
  ghost predicate Ripe(site: Site, db: Db, n: nat, cutoff: int) {
    && n in db.log && site.created(db.log[n]) < cutoff
    && db.offsets != map[] && forall g :: g in db.offsets ==> n <= db.offsets[g]
  }

  ghost predicate NoneRipe(site: Site, db: Db, cutoff: int) {
    forall n :: !Ripe(site, db, n, cutoff)
  }

  /** The labelled rows older than the cutoff that every group has committed past. */
  function Deletable(site: Site, db: Db, cutoff: int): set<nat> {
    if db.offsets == map[] then {}
    else set n | n in db.log && site.created(db.log[n]) < cutoff && forall g :: g in db.offsets ==> n <= db.offsets[g]
  }

  /** At most `limit` of `all`, the favourites first, and fewer only if there are no more. */
  method Pick(favourites: set<nat>, all: set<nat>, limit: nat) returns (picked: set<nat>)
    requires favourites <= all
    ensures picked <= all && |picked| <= limit
    ensures |picked| < limit ==> picked == all
  {
    picked := favourites;
    while |picked| > limit
      invariant picked <= all
    {
      var n :| n in picked;
      picked := picked - {n};
    }
    while |picked| < limit && all - picked != {}
      invariant picked <= all && |picked| <= limit
      decreases limit - |picked|
    {
      var n :| n in all - picked;
      picked := picked + {n};
    }
    assert all == picked + (all - picked);
  }

  /** A batch that could have been larger took everything. */
  lemma SweepLeaves(site: Site, s: Sys, victims: set<nat>, cutoff: int, limit: nat)
    requires victims <= Deletable(site, s.db, cutoff) && |victims| <= limit
    requires |victims| < limit ==> victims == Deletable(site, s.db, cutoff)
    ensures var t := Next(site, s, Sweep(victims, cutoff, limit));
            && (forall n :: n in victims ==> Ripe(site, s.db, n, cutoff)) && t.db.log == s.db.log - victims
            && (|victims| < limit ==> NoneRipe(site, t.db, cutoff))
  {
  }

  lemma StandsStill(site: Site, s: Sys, l: Label, i: nat)
    requires Actor(l) != Some(i) || IsLate(l, i)
    ensures LocalOf(Next(site, s, l), i) == LocalOf(s, i)
  {
  }

  lemma DiesOnlyByCrash(site: Site, s: Sys, l: Label, i: nat)
    requires l != Crash(i) && !LocalOf(s, i).Dead?
    ensures !LocalOf(Next(site, s, l), i).Dead?
  {
  }

  function RowsAt(log: map<nat, Row>, seqs: seq<nat>): (rows: seq<(nat, Row)>)
    requires forall s :: s in seqs ==> s in log
    ensures SeqsOf(rows) == seqs
    ensures forall k :: 0 <= k < |rows| ==> rows[k].0 in log && log[rows[k].0] == rows[k].1
  {
    var rows := seq(|seqs|, k requires 0 <= k < |seqs| => (seqs[k], log[seqs[k]]));
    assert SeqsOf(rows) == seqs;
    rows
  }

  lemma ListMoves(site: Site, s: Sys, i: nat, limit: nat)
    requires LocalOf(s, i).At?
    ensures var o := LocalOf(s, i).offset;
            var seqs := ListFrom(s.db.log, o + 1, s.db.nextSeq, limit);
            var t := Next(site, s, List(i, limit));
            && |seqs| <= limit && (forall n :: n in seqs ==> n in s.db.log)
            && t.db == s.db
            && LocalOf(t, i) == Page(o, PageItems(site, s.db.log, seqs), Readable(site, s.db.log, seqs), 0)
  {
    ListFromIsTheLog(s.db.log, LocalOf(s, i).offset + 1, s.db.nextSeq, limit);
  }

  function HolderOf(slot: Option<Lease>): Option<nat> {
    if slot.Some? then Some(slot.value.holder) else None
  }

  function SeqsOf(rows: seq<(nat, Row)>): seq<nat> {
    seq(|rows|, k requires 0 <= k < |rows| => rows[k].0)
  }

  /** The protocol allows this event here. */
  predicate Enabled(l: Local, batching: bool, e: Event<nat>) {
    && l.Page? && l.done < |l.items| && l.decoded <= |l.items|
    && match e
       case Reached(n) =>
         l.done < l.decoded && n in l.items[l.done..l.decoded] && (n == l.items[l.done] || batching)
       case Acked(n) => l.done < l.decoded && n == l.items[l.done]
       case ParkConfirmed(n) => n == l.items[l.done]
  }

  /** Every event is one the protocol allows where it happens. */
  ghost predicate Fits(l: Local, batching: bool, events: seq<Event<nat>>)
    decreases |events|
  {
    events == []
    || (Enabled(l, batching, events[0])
        && Fits(if events[0].Reached? then l else l.(done := l.done + 1), batching, events[1..]))
  }

  ghost function Absorb(l: Local, events: seq<Event<nat>>): Local
    decreases |events|
  {
    if events == [] || !l.Page? then l
    else if events[0].Reached? then Absorb(l, events[1..])
    else Absorb(l.(done := l.done + 1), events[1..])
  }
}
