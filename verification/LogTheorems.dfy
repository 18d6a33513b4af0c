/** The promises of the sequenced-log outbox, for every run of any number of instances. */
module LogTheorems {
  import opened Prelude
  import opened Sequencing
  import opened Leases
  import opened LogProtocol
  import opened LogSafety

  // ----- no loss

  /** A watermark has passed only rows the broker acknowledged or a park confirmed. */
  lemma WatermarkPassesOnlyDisposedRows(site: Site, run: seq<Label>, g: nat, n: nat)
    requires var s := Exec(site, run); g in s.db.offsets && Owed(s, g, n) && n <= s.db.offsets[g]
    ensures (g, n) in Exec(site, run).confirmed
  {
    EveryRunKeeps(site, run);
    assert Covered(Exec(site, run), g, Exec(site, run).db.offsets[g]);
  }

  /** A committing instance, however stale, has earned the seq it commits. */
  lemma CommitPassesOnlyDisposedRows(site: Site, run: seq<Label>, i: nat, n: nat)
    requires var s := Exec(site, run);
             && LocalOf(s, i).Page? && LocalOf(s, i).done <= |LocalOf(s, i).items|
             && Owed(s, site.fleet(i).group, n) && n <= Top(LocalOf(s, i))
    ensures (site.fleet(i).group, n) in Exec(site, run).confirmed
  {
    EveryRunKeeps(site, run);
    TopIsCovered(site, Exec(site, run), i);
  }

  /** A write given up on, whenever it lands, has earned its watermark as well. */
  lemma LateWritePassesOnlyDisposedRows(site: Site, run: seq<Label>, i: nat, top: nat, n: nat)
    requires var s := Exec(site, run); (i, Watermark(top)) in s.late && Owed(s, site.fleet(i).group, n) && n <= top
    ensures (site.fleet(i).group, n) in Exec(site, run).confirmed
  {
    EveryRunKeeps(site, run);
    assert Earned(Exec(site, run), site.fleet(i).group, top);
  }

  /** The label settles row `n` for group `g`. */
  predicate Settles(site: Site, l: Label, g: nat, n: nat) {
    l.Settle? && site.fleet(l.who).group == g && l.item == n
  }

  /** A row counts as disposed of only because an instance of its group settled it. */
  lemma {:induction false} ConfirmedWasSettled(site: Site, run: seq<Label>, g: nat, n: nat)
    requires (g, n) in Exec(site, run).confirmed
    ensures exists k :: 0 <= k < |run| && Settles(site, run[k], g, n)
  {
    hide Next;
    var init := run[..|run| - 1];
    if (g, n) in Exec(site, init).confirmed {
      ConfirmedWasSettled(site, init, g, n);
      var k :| 0 <= k < |init| && Settles(site, init[k], g, n);
      assert run[k] == init[k];
    } else {
      OnlySettlingConfirms(site, Exec(site, init), run[|run| - 1], g, n);
    }
  }

  lemma OnlySettlingConfirms(site: Site, s: Sys, l: Label, g: nat, n: nat)
    requires (g, n) !in s.confirmed && (g, n) in Next(site, s, l).confirmed
    ensures Settles(site, l, g, n)
  {
  }

  // ----- the order a pass labels in

  /** Of two rows a pass labels the older transaction's comes first, and of one transaction's the smaller id. */
  ghost predicate LabelsInOrder(labelled: map<nat, Row>, from: nat, to: nat) {
    forall m: nat, n: nat :: from <= m < n < to ==>
      && m in labelled && n in labelled
      && (labelled[m].ts < labelled[n].ts || (labelled[m].ts == labelled[n].ts && labelled[m].id < labelled[n].id))
  }

  /** What a pass left is no older than anything it labelled. */
  ghost predicate LeavesTheYoungest(labelled: map<nat, Row>, from: nat, to: nat, left: set<Row>) {
    forall n: nat, r :: from <= n < to && r in left ==>
      && n in labelled && (labelled[n].ts < r.ts || (labelled[n].ts == r.ts && labelled[n].id < r.id))
  }

  lemma PassLabelsOldestFirst(s: Sys, limit: nat, late: set<Row>)
    ensures var t := Sequenced(s, limit, late);
            && LabelsInOrder(t.labelled, s.db.nextSeq, t.db.nextSeq)
            && LeavesTheYoungest(t.labelled, s.db.nextSeq, t.db.nextSeq, t.db.pending - late)
  {
    hide Taken, Labels;
    var t := Sequenced(s, limit, late);
    var rows := Taken(s.db.pending - late, limit);
    RowsInOrder(s.labelled, rows, s.db.nextSeq);
    RestIsYounger(s.labelled, s.db.pending - late, limit, s.db.nextSeq, t.db.pending - late);
  }

  lemma RowsInOrder(labelled: map<nat, Row>, rows: seq<Row>, next: nat)
    requires forall i, j :: 0 <= i < j < |rows| ==> Before(rows[i], rows[j])
    ensures LabelsInOrder(labelled + Labels(rows, next), next, next + |rows|)
  {
    var after := labelled + Labels(rows, next);
    forall m: nat, n: nat | next <= m < n < next + |rows|
      ensures m in after && n in after
      ensures after[m].ts < after[n].ts || (after[m].ts == after[n].ts && after[m].id < after[n].id)
    {
      assert Before(rows[m - next], rows[n - next]);
    }
  }

  lemma RestIsYounger(labelled: map<nat, Row>, pending: set<Row>, limit: nat, next: nat, left: set<Row>)
    requires forall r :: r in left ==> r in pending && r !in Taken(pending, limit)
    ensures var rows := Taken(pending, limit);
            LeavesTheYoungest(labelled + Labels(rows, next), next, next + |rows|, left)
  {
    hide Taken, Before;
    var rows := Taken(pending, limit);
    var after := labelled + Labels(rows, next);
    forall n: nat, r | next <= n < next + |rows| && r in left
      ensures n in after && (after[n].ts < r.ts || (after[n].ts == r.ts && after[n].id < r.id))
    {
      assert rows[n - next] in rows;
      TakenComeFirst(pending, limit, rows[n - next], r);
    }
  }

  // ----- what only accumulates

  lemma PassGrows(s: Sys, limit: nat, late: set<Row>)
    requires Labelled(s)
    ensures Grows(s, Sequenced(s, limit, late))
  {
    var t := Sequenced(s, limit, late);
    forall n | n in s.labelled
      ensures n in t.labelled && t.labelled[n] == s.labelled[n]
    {
      assert n < s.db.nextSeq;
    }
  }

  lemma MoveGrows(s: Sys, t: Sys, i: nat, l: Local)
    requires Grows(s, t)
    ensures Grows(s, Move(t, i, l))
  {
    assert forall g: nat, n: nat :: Owed(Move(t, i, l), g, n) <==> Owed(t, g, n);
  }

  lemma StepGrows(site: Site, s: Sys, l: Label)
    requires Inv(site, s)
    ensures Grows(s, Next(site, s, l))
  {
    hide Labelled, Registered, NothingLost, SweptIsSettled, Grows, Earned, LocalHolds, Sequenced;
    match l
    case SequencePass(limit, late) => PassGrows(s, limit, late);
    case RegisterLatest(i) =>
      LandedKeeps(site, s, i, Newest);
      MoveGrows(s, Landed(site, s, i, Newest), i, Registering);
      ItselfGrows(s);
    case Commit(i, n) =>
      if MayWrite(LocalOf(s, i), Watermark(n)) {
        MayWriteEarned(site, s, i, n);
        LandedKeeps(site, s, i, Watermark(n));
        MoveGrows(s, Landed(site, s, i, Watermark(n)), i, At(n));
      }
      ItselfGrows(s);
    case Land(i, w) =>
      ItselfGrows(s);
      if (i, w) in s.late {
        LandedKeeps(site, s, i, w);
      }
    case _ => QuietStepGrows(site, s, l);
  }

  lemma QuietStepGrows(site: Site, s: Sys, l: Label)
    requires !l.SequencePass? && !l.RegisterLatest? && !l.Commit? && !l.Land?
    ensures Grows(s, Next(site, s, l))
  {
    hide ListedPage, Elect, Dropped, MayWrite, FenceOpen, Sweepable, Fresh, Narrows;
    QuietStepNarrows(site, s, l);
  }

  lemma QuietStepNarrows(site: Site, s: Sys, l: Label)
    requires !l.SequencePass? && !l.RegisterLatest? && !l.Commit? && !l.Land?
    ensures Narrows(s, Next(site, s, l))
  {
    hide ListedPage, Elect, Dropped, MayWrite, FenceOpen, Sweepable, Fresh;
  }

  lemma ExecSplits(site: Site, run: seq<Label>, l: Label)
    ensures Exec(site, run + [l]) == Next(site, Exec(site, run), l)
  {
    assert (run + [l])[..|run|] == run;
  }

  /** Watermarks, labels, registrations and disposals are never taken back. */
  lemma {:induction false} RunsGrow(site: Site, run: seq<Label>, more: seq<Label>)
    ensures Grows(Exec(site, run), Exec(site, run + more))
  {
    if more == [] {
      assert run + more == run;
    } else {
      var k := |more| - 1;
      RunsGrow(site, run, more[..k]);
      EveryRunKeeps(site, run + more[..k]);
      StepGrows(site, Exec(site, run + more[..k]), more[k]);
      assert run + more == run + more[..k] + [more[k]];
      ExecSplits(site, run + more[..k], more[k]);
    }
  }

  // ----- order of first delivery

  ghost predicate Serial(site: Site, g: nat) {
    forall i :: site.fleet(i).group == g ==> !site.fleet(i).batching
  }

  /** Whatever may have reached the broker for `g` came after everything owed before it. */
  ghost predicate Orderly(s: Sys, g: nat) {
    forall n: nat :: (g, n) in s.touched ==>
      n < s.db.nextSeq && forall m: nat :: m < n && Owed(s, g, m) ==> (g, m) in s.confirmed
  }

  lemma HeadOfPageIsNext(site: Site, s: Sys, i: nat)
    requires Inv(site, s) && LocalOf(s, i).Page?
    requires var p := LocalOf(s, i); p.done < |p.items|
    ensures var p := LocalOf(s, i);
            && p.items[p.done] < s.db.nextSeq
            && forall m: nat :: m < p.items[p.done] && Owed(s, site.fleet(i).group, m)
                 ==> (site.fleet(i).group, m) in s.confirmed
  {
    var p := LocalOf(s, i);
    assert LocalHolds(site, s, i);
    forall m: nat | m < p.items[p.done] && Owed(s, site.fleet(i).group, m)
      ensures (site.fleet(i).group, m) in s.confirmed
    {
      assert forall k :: p.done <= k < |p.items| ==> m < p.items[k];
      assert m !in p.items[p.done..];
    }
  }

  lemma StepKeepsOrder(site: Site, s: Sys, l: Label, g: nat)
    requires Inv(site, s) && Serial(site, g) && Orderly(s, g)
    ensures Orderly(Next(site, s, l), g)
  {
    hide Inv, Next, Owed;
    var t := Next(site, s, l);
    StepGrows(site, s, l);
    forall n: nat | (g, n) in t.touched
      ensures n < t.db.nextSeq
      ensures forall m: nat :: m < n && Owed(t, g, m) ==> (g, m) in t.confirmed
    {
      if (g, n) !in s.touched {
        OnlyThePageHeadIsTouched(site, s, l, g, n);
        HeadOfPageIsNext(site, s, l.who);
      }
      assert forall m: nat :: m < n && Owed(t, g, m) ==> Owed(s, g, m);
    }
  }

  lemma OnlyThePageHeadIsTouched(site: Site, s: Sys, l: Label, g: nat, n: nat)
    requires Serial(site, g) && (g, n) !in s.touched && (g, n) in Next(site, s, l).touched
    ensures (l.Reach? || l.Settle?) && site.fleet(l.who).group == g
    ensures var p := LocalOf(s, l.who); p.Page? && p.done < |p.items| && n == p.items[p.done]
  {
  }

  lemma {:induction false} EveryRunIsOrderly(site: Site, run: seq<Label>, g: nat)
    requires Serial(site, g)
    ensures Orderly(Exec(site, run), g)
  {
    if run != [] {
      EveryRunIsOrderly(site, run[..|run| - 1], g);
      EveryRunKeeps(site, run[..|run| - 1]);
      StepKeepsOrder(site, Exec(site, run[..|run| - 1]), run[|run| - 1], g);
    }
  }

  /** Two rows are published and labelled. */
  function TwoRows(a: Row, b: Row): Sys {
    INIT.(db := Db({}, map[1 := a, 2 := b], 3, map[], map[]), labelled := map[1 := a, 2 := b])
  }

  /** An instance with that page in hand, leading and registered at 0. */
  function WithPage(site: Site, i: nat, a: Row, b: Row): Sys {
    var g := site.fleet(i).group;
    TwoRows(a, b).(db := TwoRows(a, b).db.(offsets := map[g := 0], locks := map[site.fleet(i).lock := Lease(i, 0)]),
                   registered := map[g := Registration(0, 3, {1, 2})],
                   locals := map[i := Page(0, [1, 2], 2, 0)])
  }

  lemma TwoAreTaken(a: Row, b: Row)
    requires Before(a, b)
    ensures Taken({a, b}, 2) == [a, b]
  {
    assert RowsOf([a, b]) == {a, b};
    SortedIsUnique({a, b}, [a, b]);
  }

  lemma TwoArePublished(site: Site, a: Row, b: Row)
    requires a.id != b.id
    ensures Next(site, Next(site, INIT, Publish(a)), Publish(b)) == INIT.(db := INIT.db.(pending := {a, b}))
  {
    assert {} + {a} + {b} == {a, b};
  }

  lemma TwoAreLabelled(site: Site, a: Row, b: Row)
    requires Before(a, b)
    ensures Next(site, INIT.(db := INIT.db.(pending := {a, b})), SequencePass(2, {})) == TwoRows(a, b)
  {
    hide Taken, Labels;
    TwoAreTaken(a, b);
    var both: set<Row>, none: set<Row> := {a, b}, {};
    assert both - none == both && RowsOf([a, b]) == both && both - both == none;
    var labels := Labels([a, b], 1);
    assert labels.Keys == {1, 2} && labels[1] == a && labels[2] == b;
    assert labels == map[1 := a, 2 := b];
    assert map[] + labels == labels;
  }

  lemma OneJoins(site: Site, i: nat, s: Sys)
    requires s.db.offsets == map[] && s.registered == map[] && s.db.locks == map[] && s.locals == map[]
    requires s.db.nextSeq == 3 && s.db.log.Keys == {1, 2}
    ensures var g := site.fleet(i).group;
            Next(site, Next(site, Next(site, s, Acquire(i, 0, 0)), ReadOffset(i)), Commit(i, 0))
            == s.(db := s.db.(offsets := map[g := 0], locks := map[site.fleet(i).lock := Lease(i, 0)]),
                  registered := map[g := Registration(0, 3, {1, 2})], locals := map[i := At(0)])
  {
    assert (set n | n in s.db.log && n > 0) == {1, 2};
  }

  lemma OneLists(site: Site, i: nat, a: Row, b: Row)
    requires site.decodable(a) && site.decodable(b)
    ensures Next(site, WithPage(site, i, a, b).(locals := map[i := At(0)]), List(i, 2)) == WithPage(site, i, a, b)
  {
    var log := map[1 := a, 2 := b];
    assert ListFrom(log, 3, 3, 0) == [] && ListFrom(log, 2, 3, 1) == [2];
    assert ListFrom(log, 1, 3, 2) == [1, 2];
    assert [1, 2][1..] == [2] && [2][1..] == [];
    assert Readable(site, log, [2]) == 1 && Readable(site, log, [1, 2]) == 2;
    assert PageItems(site, log, [1, 2]) == [1, 2];
    var t := WithPage(site, i, a, b);
    assert ListedPage(site, t.db, 0, 2) == Page(0, [1, 2], 2, 0);
  }

  lemma SecondOvertakes(site: Site, i: nat, a: Row, b: Row)
    requires site.fleet(i).batching
    ensures !Orderly(Next(site, WithPage(site, i, a, b), Reach(i, 2)), site.fleet(i).group)
  {
    var g, t := site.fleet(i).group, Next(site, WithPage(site, i, a, b), Reach(i, 2));
    assert [1, 2][0..2][1] == 2;
    assert (g, 2) in t.touched && Owed(t, g, 1) && (g, 1) !in t.confirmed;
  }

  /** One instance that batches, with two rows ahead of it: the second can arrive alone. */
  lemma BatchingOvertakes(site: Site, i: nat, a: Row, b: Row) returns (run: seq<Label>)
    requires site.fleet(i).batching
    requires a.id != b.id && Before(a, b) && site.decodable(a) && site.decodable(b)
    ensures !Orderly(Exec(site, run), site.fleet(i).group)
  {
    hide Next, Orderly;
    var published, joined := [] + [Publish(a)] + [Publish(b)], [Acquire(i, 0, 0), ReadOffset(i), Commit(i, 0)];
    ExecSplits(site, [], Publish(a));
    ExecSplits(site, [] + [Publish(a)], Publish(b));
    TwoArePublished(site, a, b);
    var labelled := published + [SequencePass(2, {})];
    ExecSplits(site, published, SequencePass(2, {}));
    TwoAreLabelled(site, a, b);
    ExecSplits(site, labelled, joined[0]);
    ExecSplits(site, labelled + [joined[0]], joined[1]);
    ExecSplits(site, labelled + [joined[0]] + [joined[1]], joined[2]);
    OneJoins(site, i, TwoRows(a, b));
    var at := labelled + [joined[0]] + [joined[1]] + [joined[2]];
    ExecSplits(site, at, List(i, 2));
    OneLists(site, i, a, b);
    ExecSplits(site, at + [List(i, 2)], Reach(i, 2));
    SecondOvertakes(site, i, a, b);
    run := at + [List(i, 2)] + [Reach(i, 2)];
  }

  /** Serial sends are exactly what order needs: with two rows that decode, any batching instance can break it. */
  lemma OrderlyExactlyWhenSerial(site: Site, g: nat, a: Row, b: Row)
    requires a.id != b.id && site.decodable(a) && site.decodable(b)
    ensures (forall run :: Orderly(Exec(site, run), g)) <==> Serial(site, g)
  {
    if Serial(site, g) {
      forall run
        ensures Orderly(Exec(site, run), g)
      {
        EveryRunIsOrderly(site, run, g);
      }
    } else {
      var i :| site.fleet(i).group == g && site.fleet(i).batching;
      var (first, second) := if Before(a, b) then (a, b) else (b, a);
      var run := BatchingOvertakes(site, i, first, second);
    }
  }

  lemma StepTouchesWhatItConfirms(site: Site, s: Sys, l: Label)
    requires s.confirmed <= s.touched
    ensures Next(site, s, l).confirmed <= Next(site, s, l).touched
  {
  }

  lemma {:induction false} ConfirmedIsTouched(site: Site, run: seq<Label>)
    ensures Exec(site, run).confirmed <= Exec(site, run).touched
  {
    if run != [] {
      ConfirmedIsTouched(site, run[..|run| - 1]);
      StepTouchesWhatItConfirms(site, Exec(site, run[..|run| - 1]), run[|run| - 1]);
    }
  }

  /**
    With serial sends the owed seqs that ever reached the broker, or were parked, form a
    downward-closed set: no gap behind any of them, failed sends included.
   */
  lemma DeliveriesAreDownwardClosed(site: Site, run: seq<Label>, g: nat, m: nat, n: nat)
    requires Serial(site, g)
    requires var s := Exec(site, run); (g, n) in s.touched && m < n && Owed(s, g, m)
    ensures (g, m) in Exec(site, run).confirmed && (g, m) in Exec(site, run).touched
  {
    EveryRunIsOrderly(site, run, g);
    ConfirmedIsTouched(site, run);
  }

  /** First deliveries go out in ascending seq order, even with several leaders at once. */
  lemma FirstDeliveriesAscend(site: Site, run: seq<Label>, j: nat, k: nat, g: nat, m: nat, n: nat)
    requires Serial(site, g) && j < k <= |run|
    requires (g, n) in Exec(site, run[..j]).touched                                  // n out by step j
    requires (g, m) !in Exec(site, run[..k]).touched && Owed(Exec(site, run[..k]), g, m) // m not out by step k
    ensures n < m
  {
    RunsGrow(site, run[..j], run[j..k]);
    assert run[..j] + run[j..k] == run[..k];
    if m < n {
      DeliveriesAreDownwardClosed(site, run[..k], g, m, n);
    }
  }

  // ----- safe deletion

  /** A swept row was disposed of, or lies at or below the start, for every registered group. */
  lemma SweepTakesOnlySettledRows(site: Site, run: seq<Label>, victims: set<nat>, cutoff: int, limit: nat,
                                  g: nat, n: nat)
    requires var s := Exec(site, run);
             && Sweepable(site, s.db, victims, cutoff, limit) && n in victims && g in s.db.offsets
    ensures var s := Exec(site, run);
            g in s.registered && ((g, n) in s.confirmed || n <= s.registered[g].start)
  {
    var s := Exec(site, run);
    EveryRunKeeps(site, run);
    assert GoodRegistration(s, g) && Covered(s, g, s.db.offsets[g]);
    if n > s.registered[g].start {
      assert Owed(s, g, n);
    }
  }

  // ----- density

  /** The seqs ever given are 1 .. next_seq - 1, and no row has two. */
  lemma SeqsAreDense(site: Site, run: seq<Label>)
    ensures var s := Exec(site, run);
            && s.db.nextSeq >= 1
            && (forall n: nat :: n in s.labelled <==> 1 <= n < s.db.nextSeq)
            && (forall m, n :: m in s.labelled && n in s.labelled && m != n ==> s.labelled[m] != s.labelled[n])
            && (forall n :: n in s.labelled ==> s.labelled[n] !in s.db.pending)
  {
    EveryRunKeeps(site, run);
  }

  ghost predicate Kept(s: Sys, row: Row) {
    row in s.db.pending || exists n :: n in s.labelled && s.labelled[n] == row
  }

  lemma KeepsTheCounter(site: Site, s: Sys, l: Label)
    requires !l.SequencePass?
    ensures Next(site, s, l).db.nextSeq == s.db.nextSeq && s.db.pending <= Next(site, s, l).db.pending
  {
  }

  lemma StepKeepsRow(site: Site, s: Sys, l: Label, row: Row)
    requires Inv(site, s) && Kept(s, row)
    ensures Kept(Next(site, s, l), row)
  {
    hide Inv, Sequenced;
    var t := Next(site, s, l);
    StepGrows(site, s, l);
    if n :| n in s.labelled && s.labelled[n] == row {
      assert t.labelled[n] == row;
    } else if l.SequencePass? {
      PassKeepsRow(s, l.limit, l.late, row);
    } else {
      KeepsTheCounter(site, s, l);
    }
  }

  lemma PassKeepsRow(s: Sys, limit: nat, late: set<Row>, row: Row)
    requires row in s.db.pending
    ensures Kept(Sequenced(s, limit, late), row)
  {
    hide Taken, Labels;
    var t := Sequenced(s, limit, late);
    if row !in t.db.pending {
      var rows := Taken(s.db.pending - late, limit);
      var labels := Labels(rows, s.db.nextSeq);
      var k :| 0 <= k < |rows| && rows[k] == row;
      var n := s.db.nextSeq + k;
      assert n in labels && labels[n] == row;
      assert t.labelled == s.labelled + labels;
    }
  }

  /** A committed row is never dropped: it is pending until it is labelled. */
  lemma {:induction false} CommittedRowsAreKept(site: Site, run: seq<Label>, more: seq<Label>, row: Row)
    requires row in Exec(site, run).db.pending
    ensures Kept(Exec(site, run + more), row)
  {
    hide Next, Inv;
    if more == [] {
      assert run + more == run;
    } else {
      var k := |more| - 1;
      CommittedRowsAreKept(site, run, more[..k], row);
      EveryRunKeeps(site, run + more[..k]);
      StepKeepsRow(site, Exec(site, run + more[..k]), more[k], row);
      assert run + more == run + more[..k] + [more[k]];
      ExecSplits(site, run + more[..k], more[k]);
    }
  }

  // ----- a new group and the backlog it finds

  /** A row still pending when a group registers at the latest seq is owed to that group. */
  lemma BacklogIsOwedAfterPriming(site: Site, run: seq<Label>, i: nat, more: seq<Label>, n: nat)
    requires LocalOf(Exec(site, run), i).Unregistered?
    requires site.fleet(i).group !in Exec(site, run).db.offsets
    requires n in Exec(site, run + [RegisterLatest(i)] + more).labelled
    requires Exec(site, run + [RegisterLatest(i)] + more).labelled[n] in Exec(site, run).db.pending
    ensures var s := Exec(site, run + [RegisterLatest(i)] + more);
            && site.fleet(i).group in s.registered && Owed(s, site.fleet(i).group, n)
            && n > s.registered[site.fleet(i).group].start
  {
    var s := Exec(site, run);
    var primed := run + [RegisterLatest(i)];
    var t := Exec(site, primed);
    ExecSplits(site, run, RegisterLatest(i));
    EveryRunKeeps(site, run);
    EveryRunKeeps(site, primed + more);
    RunsGrow(site, primed, more);
    if n in t.labelled {
      assert false;
    }
  }

  /**
    Why priming comes first: were the pass run before it, every row the pass labelled would lie
    at or below the new group's start and be owed to it never.
   */
  lemma PassBeforePrimingForfeitsTheBacklog(site: Site, run: seq<Label>, i: nat, limit: nat, late: set<Row>, n: nat)
    requires LocalOf(Exec(site, run), i).Unregistered?
    requires site.fleet(i).group !in Exec(site, run).db.offsets
    requires var db := Exec(site, run).db; db.nextSeq <= n < db.nextSeq + Min(limit, |db.pending - late|)
    ensures var s := Exec(site, run + [SequencePass(limit, late)] + [RegisterLatest(i)]);
            && n in s.labelled && s.labelled[n] in Exec(site, run).db.pending
            && site.fleet(i).group in s.registered && n <= s.registered[site.fleet(i).group].start
            && !Owed(s, site.fleet(i).group, n)
  {
    ExecSplits(site, run, SequencePass(limit, late));
    ExecSplits(site, run + [SequencePass(limit, late)], RegisterLatest(i));
    EveryRunKeeps(site, run);
    PassLabelsPending(Exec(site, run), limit, late, n);
    MaxCoversTheLog(site, Exec(site, run + [SequencePass(limit, late)]), i, n);
  }

  lemma MaxCoversTheLog(site: Site, t: Sys, i: nat, n: nat)
    requires LocalOf(t, i).Unregistered? && site.fleet(i).group !in t.db.offsets
    requires n in t.db.log && n < t.db.nextSeq
    ensures var s := Next(site, t, RegisterLatest(i));
            && s.labelled == t.labelled && site.fleet(i).group in s.registered
            && n <= s.registered[site.fleet(i).group].start
            && !Owed(s, site.fleet(i).group, n)
  {
  }

  // ----- the fence

  predicate Acquires(l: Label, i: nat) { l.Acquire? && l.who == i }

  lemma StepTakesNoLockFor(site: Site, s: Sys, l: Label, i: nat)
    requires !Acquires(l, i)
    requires HeldBy(Slot(Next(site, s, l).db, site.fleet(i).lock), i)
    ensures HeldBy(Slot(s.db, site.fleet(i).lock), i)
  {
  }

  /** Only its own acquire makes an instance the holder, so being it now means having been it. */
  lemma {:induction false} HolderWasHolder(site: Site, run: seq<Label>, more: seq<Label>, i: nat)
    requires forall k :: 0 <= k < |more| ==> !Acquires(more[k], i)
    requires HeldBy(Slot(Exec(site, run + more).db, site.fleet(i).lock), i)
    ensures HeldBy(Slot(Exec(site, run).db, site.fleet(i).lock), i)
  {
    if more == [] {
      assert run + more == run;
    } else {
      var k := |more| - 1;
      assert run + more == run + more[..k] + [more[k]];
      ExecSplits(site, run + more[..k], more[k]);
      StepTakesNoLockFor(site, Exec(site, run + more[..k]), more[k], i);
      HolderWasHolder(site, run, more[..k], i);
    }
  }

  // ----- what the read-back behind a commit is worth

  /** A lock is held only by instances that compete for it. */
  lemma {:induction false} HoldersCompete(site: Site, run: seq<Label>, lock: nat)
    ensures var slot := Slot(Exec(site, run).db, lock); slot.Some? ==> site.fleet(slot.value.holder).lock == lock
  {
    hide Next;
    if run != [] {
      HoldersCompete(site, run[..|run| - 1], lock);
      HolderCompetes(site, Exec(site, run[..|run| - 1]), run[|run| - 1], lock);
    }
  }

  lemma HolderCompetes(site: Site, s: Sys, l: Label, lock: nat)
    requires Slot(s.db, lock).Some? ==> site.fleet(Slot(s.db, lock).value.holder).lock == lock
    ensures var slot := Slot(Next(site, s, l).db, lock); slot.Some? ==> site.fleet(slot.value.holder).lock == lock
  {
  }

  ghost predicate Reaches(s: Sys, g: nat, n: nat) {
    g in s.db.offsets && s.db.offsets[g] >= n
  }

  /** A step of the others, or one of these that instance `i` has given up on. */
  predicate Outside(l: Label, i: nat, late: set<Label>) {
    Actor(l) != Some(i) || l in late
  }

  /** What instance `i` can leave behind that needs nothing more of it. */
  predicate IsLate(l: Label, i: nat) {
    (l.Acquire? || l.Release? || l.Land?) && l.who == i
  }

  /** Behind these steps the lock row names `i`, and its watermark has not come to `n`. */
  ghost predicate Misleads(site: Site, run: seq<Label>, i: nat, n: nat) {
    var s := Exec(site, run);
    HeldBy(Slot(s.db, site.fleet(i).lock), i) && !Reaches(s, site.fleet(i).group, n)
  }

  /** What follows the commit up to the read-back: others' steps and late ones, and a wrong "yes". */
  ghost predicate FollowsWrong(site: Site, run: seq<Label>, i: nat, n: nat, late: set<Label>, more: seq<Label>) {
    && (forall k :: 0 <= k < |more| ==> Outside(more[k], i, late))
    && Misleads(site, run + [Commit(i, n)] + more, i, n)
  }

  lemma CommitReachesAtOnce(site: Site, run: seq<Label>, i: nat, n: nat)
    requires MayWrite(LocalOf(Exec(site, run), i), Watermark(n)) && FenceOpen(site, Exec(site, run).db, i)
    ensures Reaches(Exec(site, run + [Commit(i, n)]), site.fleet(i).group, n)
  {
    ExecSplits(site, run, Commit(i, n));
  }

  lemma StillReached(site: Site, run: seq<Label>, more: seq<Label>, g: nat, n: nat)
    requires Reaches(Exec(site, run), g, n)
    ensures Reaches(Exec(site, run + more), g, n)
  {
    RunsGrow(site, run, more);
  }

  lemma RejectedCommit(site: Site, s: Sys, i: nat, n: nat)
    requires MayWrite(LocalOf(s, i), Watermark(n)) && !FenceOpen(site, s.db, i)
    ensures Next(site, s, Commit(i, n)).db == s.db
  {
  }

  lemma FreeLockIsTaken(site: Site, s: Sys, bid: Label, i: nat)
    requires Acquires(bid, i) && Slot(s.db, site.fleet(i).lock).None?
    ensures var t := Next(site, s, bid);
            HeldBy(Slot(t.db, site.fleet(i).lock), i) && t.db.offsets == s.db.offsets
  {
  }

  lemma LockIsLeft(site: Site, s: Sys, j: nat)
    requires HeldBy(Slot(s.db, site.fleet(j).lock), j)
    ensures var t := Next(site, s, Release(j));
            Slot(t.db, site.fleet(j).lock).None? && t.db.offsets == s.db.offsets
  {
  }

  /** The others let the lock go, and the late bid takes it. */
  lemma LateBidMisleads(site: Site, run: seq<Label>, i: nat, n: nat, late: set<Label>, bid: Label)
    requires Acquires(bid, i) && bid in late && !FenceOpen(site, Exec(site, run).db, i)
    requires !Reaches(Exec(site, run), site.fleet(i).group, n)
    requires MayWrite(LocalOf(Exec(site, run), i), Watermark(n))
    ensures exists more :: FollowsWrong(site, run, i, n, late, more)
  {
    hide Next, Exec, MayWrite;
    var rejected := run + [Commit(i, n)];
    var slot := Slot(Exec(site, run).db, site.fleet(i).lock);
    ExecSplits(site, run, Commit(i, n));
    RejectedCommit(site, Exec(site, run), i, n);
    if slot.None? {
      FreeLockIsTaken(site, Exec(site, rejected), bid, i);
      ExecSplits(site, rejected, bid);
      assert FollowsWrong(site, run, i, n, late, [bid]);
    } else {
      HoldersCompete(site, run, site.fleet(i).lock);
      var gone := Release(slot.value.holder);
      LockIsLeft(site, Exec(site, rejected), slot.value.holder);
      FreeLockIsTaken(site, Next(site, Exec(site, rejected), gone), bid, i);
      ExecSplits(site, rejected, gone);
      ExecSplits(site, rejected + [gone], bid);
      assert rejected + [gone, bid] == rejected + [gone] + [bid];
      assert FollowsWrong(site, run, i, n, late, [gone, bid]);
    }
  }

  /**
    Zero affected rows, and the lock row read back: the read can vouch for a watermark that was not
    written if and only if the fence was closed and a bid this instance gave up on is outstanding.
   */
  lemma ReadBackMisleadsExactlyByALateBid(site: Site, run: seq<Label>, i: nat, n: nat, late: set<Label>)
    requires site.fleet(i).fenced && MayWrite(LocalOf(Exec(site, run), i), Watermark(n))
    requires !Reaches(Exec(site, run), site.fleet(i).group, n)
    requires forall l :: l in late ==> IsLate(l, i)
    ensures (exists more :: FollowsWrong(site, run, i, n, late, more))
            <==> !FenceOpen(site, Exec(site, run).db, i) && exists bid :: bid in late && Acquires(bid, i)
  {
    var sent := run + [Commit(i, n)];
    forall more | FollowsWrong(site, run, i, n, late, more)
      ensures !FenceOpen(site, Exec(site, run).db, i) && exists bid :: bid in late && Acquires(bid, i)
    {
      if FenceOpen(site, Exec(site, run).db, i) {
        CommitReachesAtOnce(site, run, i, n);
        StillReached(site, sent, more, site.fleet(i).group, n);
      } else if forall k :: 0 <= k < |more| ==> !Acquires(more[k], i) {
        HolderWasHolder(site, sent, more, i);
        ExecSplits(site, run, Commit(i, n));
        StepTakesNoLockFor(site, Exec(site, run), Commit(i, n), i);
      }
    }
    if bid :| bid in late && Acquires(bid, i) && !FenceOpen(site, Exec(site, run).db, i) {
      LateBidMisleads(site, run, i, n, late, bid);
    }
  }
}
