/** What every run of the sequenced-log outbox keeps. */
module LogSafety {
  import opened Prelude
  import opened Sequencing
  import opened Leases
  import opened LogProtocol

  // ----- the invariant

  /** Seqs are dense, and the log holds only labelled rows. */
  ghost predicate Dense(next: nat, labelled: map<nat, Row>, log: map<nat, Row>) {
    && next >= 1
    && (forall n: nat :: n in labelled <==> 1 <= n < next)
    && (forall n: nat :: n in log ==> n in labelled && log[n] == labelled[n])
  }

  /** No row has two seqs, none is labelled and pending at once, and ids are unique. */
  ghost predicate OneRowEach(labelled: map<nat, Row>, pending: set<Row>) {
    && (forall m, n :: m in labelled && n in labelled && m != n ==> labelled[m].id != labelled[n].id)
    && (forall n, r :: n in labelled && r in pending ==> labelled[n].id != r.id)
    && (forall q, r :: q in pending && r in pending && q != r ==> q.id != r.id)
  }

  ghost predicate Labelled(s: Sys) {
    && Dense(s.db.nextSeq, s.labelled, s.db.log)
    && OneRowEach(s.labelled, s.db.pending)
  }

  ghost predicate GoodRegistration(s: Sys, g: nat)
    requires g in s.registered && g in s.db.offsets
  {
    var reg := s.registered[g];
    && reg.start < reg.next <= s.db.nextSeq
    && s.db.offsets[g] < s.db.nextSeq
    && (forall n: nat :: n in reg.present ==> reg.start < n < reg.next)
    && (forall n: nat :: n in s.db.log && reg.start < n < reg.next ==> n in reg.present)
  }

  ghost predicate Registered(s: Sys) {
    && s.db.offsets.Keys == s.registered.Keys
    && forall g :: g in s.registered && g in s.db.offsets ==> GoodRegistration(s, g)
  }

  /** Everything `g` is owed up to `top` is disposed of. */
  ghost predicate Covered(s: Sys, g: nat, top: nat) {
    forall n: nat :: Owed(s, g, n) && n <= top ==> (g, n) in s.confirmed
  }

  ghost predicate NothingLost(s: Sys) {
    forall g :: g in s.db.offsets ==> Covered(s, g, s.db.offsets[g])
  }

  /** A row the sweep took owes nobody anything. */
  ghost predicate SweptIsSettled(s: Sys) {
    forall g: nat, n: nat :: Owed(s, g, n) && n !in s.db.log ==> (g, n) in s.confirmed
  }

  /** Up to the page's end, what is not still ahead in the page is disposed of. */
  ghost predicate PageCovers(s: Sys, g: nat, p: Local)
    requires p.Page?
  {
    && p.decoded <= |p.items| && p.done <= |p.items|
    && (forall j, k :: 0 <= j < k < |p.items| ==> p.items[j] < p.items[k])
    && (forall k :: 0 <= k < |p.items| ==> p.offset < p.items[k] < s.db.nextSeq)
    && (forall n: nat :: Owed(s, g, n) && p.items != [] && n <= p.items[|p.items| - 1] && n !in p.items[p.done..]
          ==> (g, n) in s.confirmed)
  }

  ghost predicate LocalHolds(site: Site, s: Sys, i: nat) {
    var g := site.fleet(i).group;
    match LocalOf(s, i)
    case At(o) => Earned(s, g, o)
    case Page(o, _, _, _) => Earned(s, g, o) && PageCovers(s, g, LocalOf(s, i))
    case _ => true
  }

  /** `g` may have this watermark. */
  ghost predicate Earned(s: Sys, g: nat, n: nat) {
    n < s.db.nextSeq && Covered(s, g, n)
  }

  /** Whatever is still to land was earned when it was sent, and stays so. */
  ghost predicate LateIsEarned(site: Site, s: Sys) {
    forall i, n :: (i, Watermark(n)) in s.late ==> Earned(s, site.fleet(i).group, n)
  }

  /** The tables and the history. */
  ghost predicate Tables(s: Sys) {
    Labelled(s) && Registered(s) && NothingLost(s) && SweptIsSettled(s)
  }

  ghost predicate Inv(site: Site, s: Sys) {
    Tables(s) && LateIsEarned(site, s) && forall i :: LocalHolds(site, s, i)
  }

  // ----- what carries over from one state to the next

  /** Seqs and disposals only accumulate, and a registration is never rewritten. */
  ghost predicate Grows(s: Sys, t: Sys) {
    && s.db.nextSeq <= t.db.nextSeq
    && s.confirmed <= t.confirmed
    && s.touched <= t.touched
    && s.late <= t.late
    && (forall n: nat :: n in s.labelled ==> n in t.labelled && t.labelled[n] == s.labelled[n])
    && (forall g :: g in s.registered ==> g in t.registered && t.registered[g] == s.registered[g])
    && (forall g :: g in s.db.offsets ==> g in t.db.offsets && s.db.offsets[g] <= t.db.offsets[g])
    && Narrows(s, t)
  }

  /** Nobody comes to be owed an old row it was not owed before. */
  ghost predicate Narrows(s: Sys, t: Sys) {
    forall g: nat, n: nat :: Owed(t, g, n) && n < s.db.nextSeq ==> Owed(s, g, n)
  }

  lemma CoveredCarries(s: Sys, t: Sys, g: nat, top: nat)
    requires Grows(s, t) && Earned(s, g, top)
    ensures Earned(t, g, top)
  {
  }

  lemma LateCarries(site: Site, s: Sys, t: Sys)
    requires Grows(s, t) && t.late == s.late && LateIsEarned(site, s)
    ensures LateIsEarned(site, t)
  {
    hide Grows, Earned;
    forall i, n | (i, Watermark(n)) in t.late
      ensures Earned(t, site.fleet(i).group, n)
    {
      CoveredCarries(s, t, site.fleet(i).group, n);
    }
  }

  lemma LocalCarries(site: Site, s: Sys, t: Sys, i: nat)
    requires Grows(s, t) && LocalOf(s, i) == LocalOf(t, i)
    requires LocalHolds(site, s, i)
    ensures LocalHolds(site, t, i)
  {
    var g := site.fleet(i).group;
    var l := LocalOf(s, i);
    match l
    case At(o) => CoveredCarries(s, t, g, o);
    case Page(o, items, _, _) => CoveredCarries(s, t, g, o);
    case _ =>
  }

  lemma OthersCarry(site: Site, s: Sys, t: Sys, i: nat)
    requires Grows(s, t)
    requires forall j :: j != i ==> LocalOf(s, j) == LocalOf(t, j)
    requires forall j :: LocalHolds(site, s, j)
    requires LocalHolds(site, t, i)
    ensures forall j :: LocalHolds(site, t, j)
  {
    forall j | j != i
      ensures LocalHolds(site, t, j)
    {
      LocalCarries(site, s, t, j);
    }
  }

  lemma AllCarry(site: Site, s: Sys, t: Sys)
    requires Grows(s, t) && s.locals == t.locals
    requires forall j :: LocalHolds(site, s, j)
    ensures forall j :: LocalHolds(site, t, j)
  {
    forall j
      ensures LocalHolds(site, t, j)
    {
      LocalCarries(site, s, t, j);
    }
  }

  /** A step that moves no instance and sends nothing has only the tables to answer for. */
  lemma TablesKeep(site: Site, s: Sys, t: Sys)
    requires Inv(site, s) && Tables(t) && Grows(s, t) && t.locals == s.locals && t.late == s.late
    ensures Inv(site, t)
  {
    hide Labelled, Registered, NothingLost, SweptIsSettled, Grows, LateIsEarned, LocalHolds;
    AllCarry(site, s, t);
    LateCarries(site, s, t);
  }

  // ----- one lemma per kind of step

  lemma PublishKeeps(site: Site, s: Sys, row: Row)
    requires Inv(site, s) && Fresh(s, row)
    ensures Inv(site, Next(site, s, Publish(row)))
  {
    TablesKeep(site, s, Next(site, s, Publish(row)));
  }

  lemma PassLabelsPending(s: Sys, limit: nat, late: set<Row>, n: nat)
    requires Labelled(s)
    requires n in Sequenced(s, limit, late).labelled && n >= s.db.nextSeq
    ensures var t := Sequenced(s, limit, late);
            t.labelled[n] == Taken(s.db.pending - late, limit)[n - s.db.nextSeq]
            && t.labelled[n] in s.db.pending && t.labelled[n] !in t.db.pending
  {
    var rows := Taken(s.db.pending - late, limit);
    var labels := Labels(rows, s.db.nextSeq);
    assert n !in s.labelled && n in labels;
    assert rows[n - s.db.nextSeq] in rows;
  }

  lemma PassKeepsRowsApart(s: Sys, limit: nat, late: set<Row>, m: nat, n: nat)
    requires Labelled(s)
    requires 1 <= m < n < s.db.nextSeq + Min(limit, |s.db.pending - late|)
    ensures var t := Sequenced(s, limit, late);
            m in t.labelled && n in t.labelled && t.labelled[m].id != t.labelled[n].id
  {
    if n >= s.db.nextSeq {
      PassLabelsPending(s, limit, late, n);
      if m >= s.db.nextSeq {
        PassLabelsPending(s, limit, late, m);
        var rows := Taken(s.db.pending - late, limit);
        assert Before(rows[m - s.db.nextSeq], rows[n - s.db.nextSeq]);
      }
    }
  }

  lemma PassStaysDense(s: Sys, limit: nat, late: set<Row>)
    requires Labelled(s)
    ensures var t := Sequenced(s, limit, late); Dense(t.db.nextSeq, t.labelled, t.db.log)
  {
  }

  lemma PassLabelsOnce(s: Sys, limit: nat, late: set<Row>)
    requires Labelled(s)
    ensures var t := Sequenced(s, limit, late); OneRowEach(t.labelled, t.db.pending)
  {
    var t := Sequenced(s, limit, late);
    forall m, n | m in t.labelled && n in t.labelled && m != n
      ensures t.labelled[m].id != t.labelled[n].id
    {
      PassKeepsRowsApart(s, limit, late, if m < n then m else n, if m < n then n else m);
    }
    forall n, r | n in t.labelled && r in t.db.pending
      ensures t.labelled[n].id != r.id
    {
      if n >= s.db.nextSeq {
        PassLabelsPending(s, limit, late, n);
      }
    }
  }

  lemma PassStaysLabelled(s: Sys, limit: nat, late: set<Row>)
    requires Labelled(s)
    ensures Labelled(Sequenced(s, limit, late))
  {
    hide Sequenced, Dense, OneRowEach;
    PassStaysDense(s, limit, late);
    PassLabelsOnce(s, limit, late);
  }

  lemma PassKeeps(site: Site, s: Sys, limit: nat, late: set<Row>)
    requires Inv(site, s)
    ensures Inv(site, Sequenced(s, limit, late))
  {
    var t := Sequenced(s, limit, late);
    PassStaysLabelled(s, limit, late);
    assert Grows(s, t);
    forall g | g in t.db.offsets
      ensures Covered(t, g, t.db.offsets[g]) && GoodRegistration(t, g)
    {
      CoveredCarries(s, t, g, s.db.offsets[g]);
    }
    forall g: nat, n: nat | Owed(t, g, n) && n !in t.db.log
      ensures (g, n) in t.confirmed
    {
      assert Owed(s, g, n);
    }
    AllCarry(site, s, t);
    LateCarries(site, s, t);
  }

  lemma SweepGrows(s: Sys, victims: set<nat>)
    requires Registered(s) && victims <= s.db.log.Keys
    ensures Grows(s, WithoutRows(s, victims))
  {
  }

  function WithoutRows(s: Sys, victims: set<nat>): Sys {
    s.(db := s.db.(log := s.db.log - victims))
  }

  lemma SweepKeepsWatermarks(s: Sys, victims: set<nat>)
    requires Labelled(s) && Registered(s) && NothingLost(s) && Grows(s, WithoutRows(s, victims))
    ensures var t := WithoutRows(s, victims); Labelled(t) && Registered(t) && NothingLost(t)
  {
    var t := WithoutRows(s, victims);
    forall g | g in t.db.offsets
      ensures GoodRegistration(t, g) && Covered(t, g, t.db.offsets[g])
    {
      assert GoodRegistration(s, g);
      CoveredCarries(s, t, g, s.db.offsets[g]);
    }
  }

  lemma SweepSettles(site: Site, s: Sys, victims: set<nat>, cutoff: int, limit: nat)
    requires Registered(s) && NothingLost(s) && SweptIsSettled(s) && Sweepable(site, s.db, victims, cutoff, limit)
    ensures SweptIsSettled(WithoutRows(s, victims))
  {
    var t := WithoutRows(s, victims);
    forall g: nat, n: nat | Owed(t, g, n) && n !in t.db.log
      ensures (g, n) in t.confirmed
    {
      assert Owed(s, g, n);
      if n in victims {
        assert Covered(s, g, s.db.offsets[g]);
      }
    }
  }

  lemma SweepKeeps(site: Site, s: Sys, victims: set<nat>, cutoff: int, limit: nat)
    requires Inv(site, s) && Sweepable(site, s.db, victims, cutoff, limit)
    ensures Inv(site, Next(site, s, Sweep(victims, cutoff, limit)))
  {
    hide Labelled, Registered, NothingLost, SweptIsSettled, Grows, LateIsEarned, LocalHolds;
    SweepGrows(s, victims);
    SweepKeepsWatermarks(s, victims);
    SweepSettles(site, s, victims, cutoff, limit);
    TablesKeep(site, s, WithoutRows(s, victims));
  }

  lemma NewcomerIsRegistered(s: Sys, g: nat, start: nat)
    requires Labelled(s) && Registered(s)
    requires start < s.db.nextSeq && g !in s.db.offsets
    ensures var t := Register(s, g, start);
            && Labelled(t) && Registered(t) && Grows(s, t) && t.locals == s.locals && t.late == s.late
  {
    var t := Register(s, g, start);
    forall h: nat | h in t.db.offsets
      ensures GoodRegistration(t, h)
    {
      if h != g {
        assert GoodRegistration(s, h);
      }
    }
  }

  lemma NewcomerLosesNothing(s: Sys, g: nat, start: nat)
    requires Registered(s) && NothingLost(s) && SweptIsSettled(s)
    requires g !in s.db.offsets
    requires Registered(Register(s, g, start)) && Grows(s, Register(s, g, start))
    ensures var t := Register(s, g, start);
            NothingLost(t) && SweptIsSettled(t)
  {
    var t := Register(s, g, start);
    assert GoodRegistration(t, g);
    forall h: nat | h in t.db.offsets
      ensures Covered(t, h, t.db.offsets[h])
    {
      if h != g {
        assert GoodRegistration(s, h);
        CoveredCarries(s, t, h, s.db.offsets[h]);
      }
    }
    forall h: nat, n: nat | Owed(t, h, n) && n !in t.db.log
      ensures (h, n) in t.confirmed
    {
      if h != g {
        assert Owed(s, h, n);
      }
    }
  }

  lemma LocalsAreNoTables(site: Site, t: Sys, u: Sys)
    requires Tables(t) && LateIsEarned(site, t) && u == t.(locals := u.locals)
    ensures Tables(u) && LateIsEarned(site, u) && forall s :: Grows(s, t) ==> Grows(s, u)
  {
    assert forall g: nat, n: nat :: Owed(u, g, n) <==> Owed(t, g, n);
    assert forall g :: g in u.db.offsets ==> GoodRegistration(t, g) && Covered(t, g, t.db.offsets[g]);
    assert forall g: nat, top: nat :: Earned(t, g, top) ==> Earned(u, g, top);
  }

  lemma MoveKeeps(site: Site, s: Sys, t: Sys, i: nat, l: Local)
    requires Tables(t) && LateIsEarned(site, t)
    requires forall j :: LocalHolds(site, s, j)
    requires Grows(s, t) && s.locals == t.locals
    requires LocalHolds(site, Move(t, i, l), i)
    ensures Inv(site, Move(t, i, l))
  {
    var u := Move(t, i, l);
    LocalsAreNoTables(site, t, u);
    OthersCarry(site, s, u, i);
  }

  lemma ReadKeeps(site: Site, s: Sys, i: nat)
    requires Inv(site, s)
    ensures Inv(site, Next(site, s, ReadOffset(i)))
  {
    var g := site.fleet(i).group;
    if g in s.db.offsets {
      assert GoodRegistration(s, g);
      assert Covered(s, g, s.db.offsets[g]);
      assert LocalHolds(site, Move(s, i, At(s.db.offsets[g])), i) by {
        CoveredCarries(s, Move(s, i, At(s.db.offsets[g])), g, s.db.offsets[g]);
      }
      MoveKeeps(site, s, s, i, At(s.db.offsets[g]));
    } else {
      MoveKeeps(site, s, s, i, Unregistered);
    }
  }

  /** A page holds every row of the log between the offset and the page's last row. */
  lemma PageSkipsNoRow(site: Site, log: map<nat, Row>, from: nat, to: nat, limit: nat, seqs: seq<nat>)
    requires IsListing(log, from, to, limit, seqs)
    ensures var items := PageItems(site, log, seqs);
            && Readable(site, log, seqs) <= |items|
            && (forall j, k :: 0 <= j < k < |items| ==> items[j] < items[k])
            && (forall k :: 0 <= k < |items| ==> from <= items[k] < to)
            && (forall n: nat :: n in log && items != [] && from <= n <= items[|items| - 1] ==> n in items)
  {
    var items := PageItems(site, log, seqs);
    forall n: nat | n in log && items != [] && from <= n <= items[|items| - 1]
      ensures n in items
    {
      assert items[|items| - 1] <= seqs[|seqs| - 1];
      assert n in seqs;
      var k :| 0 <= k < |seqs| && seqs[k] == n;
      assert items[k] == n;
    }
  }

  lemma FreshPageCovers(s: Sys, g: nat, p: Local)
    requires SweptIsSettled(s)
    requires p.Page? && p.done == 0 && p.decoded <= |p.items| && Covered(s, g, p.offset)
    requires forall j, k :: 0 <= j < k < |p.items| ==> p.items[j] < p.items[k]
    requires forall k :: 0 <= k < |p.items| ==> p.offset < p.items[k] < s.db.nextSeq
    requires forall n: nat :: n in s.db.log && p.items != [] && p.offset < n <= p.items[|p.items| - 1] ==> n in p.items
    ensures PageCovers(s, g, p)
  {
    assert p.items[0..] == p.items;
  }

  lemma ListedPageCovers(site: Site, s: Sys, g: nat, offset: nat, limit: nat)
    requires SweptIsSettled(s) && Covered(s, g, offset)
    ensures var p := ListedPage(site, s.db, offset, limit);
            p.Page? && p.offset == offset && PageCovers(s, g, p)
  {
    var seqs := ListFrom(s.db.log, offset + 1, s.db.nextSeq, limit);
    ListFromIsTheLog(s.db.log, offset + 1, s.db.nextSeq, limit);
    PageSkipsNoRow(site, s.db.log, offset + 1, s.db.nextSeq, limit, seqs);
    FreshPageCovers(s, g, ListedPage(site, s.db, offset, limit));
  }

  lemma ListKeeps(site: Site, s: Sys, i: nat, limit: nat)
    requires Inv(site, s) && LocalOf(s, i).At?
    ensures Inv(site, Next(site, s, List(i, limit)))
  {
    hide Labelled, Registered, NothingLost, SweptIsSettled, PageCovers, ListedPage;
    assert LocalHolds(site, s, i);
    ListedPageCovers(site, s, site.fleet(i).group, LocalOf(s, i).offset, limit);
    PageMoveKeeps(site, s, i, ListedPage(site, s.db, LocalOf(s, i).offset, limit));
  }

  lemma PageMoveKeeps(site: Site, s: Sys, i: nat, p: Local)
    requires Inv(site, s)
    requires p.Page? && Earned(s, site.fleet(i).group, p.offset) && PageCovers(s, site.fleet(i).group, p)
    ensures Inv(site, Move(s, i, p))
  {
    var g := site.fleet(i).group;
    var t := Move(s, i, p);
    assert forall n: nat :: Owed(t, g, n) <==> Owed(s, g, n);
    assert Covered(t, g, p.offset) && PageCovers(t, g, p);
    MoveKeeps(site, s, s, i, p);
  }

  lemma TouchingKeepsTables(s: Sys, touched: set<(nat, nat)>)
    requires Tables(s) && s.touched <= touched
    ensures var t := s.(touched := touched); Tables(t) && Grows(s, t)
  {
    var t := s.(touched := touched);
    assert forall g: nat, m: nat :: Owed(t, g, m) <==> Owed(s, g, m);
    assert forall g :: g in t.db.offsets ==> GoodRegistration(s, g) && Covered(s, g, s.db.offsets[g]);
  }

  lemma ReachKeeps(site: Site, s: Sys, i: nat, n: nat)
    requires Inv(site, s)
    ensures Inv(site, Next(site, s, Reach(i, n)))
  {
    hide Labelled, Registered, NothingLost, SweptIsSettled, Grows, LateIsEarned, LocalHolds;
    var t := Next(site, s, Reach(i, n));
    if t != s {
      TouchingKeepsTables(s, t.touched);
      TablesKeep(site, s, t);
    }
  }

  function Settled(s: Sys, g: nat, n: nat): Sys {
    s.(confirmed := s.confirmed + {(g, n)}, touched := s.touched + {(g, n)})
  }

  lemma SettlingKeepsTables(s: Sys, g: nat, n: nat)
    requires Tables(s)
    ensures var t := Settled(s, g, n);
            && Tables(t) && Grows(s, t) && t.late == s.late
  {
    var t := Settled(s, g, n);
    assert forall h: nat, m: nat :: Owed(t, h, m) <==> Owed(s, h, m);
    assert forall h :: h in t.db.offsets ==> GoodRegistration(s, h) && Covered(s, h, s.db.offsets[h]);
  }

  lemma SettledPageCovers(s: Sys, g: nat, p: Local, t: Sys)
    requires p.Page? && p.done < |p.items| && PageCovers(s, g, p)
    requires t.confirmed == s.confirmed + {(g, p.items[p.done])} && t.registered == s.registered && t.db == s.db
    ensures PageCovers(t, g, p.(done := p.done + 1))
  {
    var q := p.(done := p.done + 1);
    forall m: nat | Owed(t, g, m) && m <= p.items[|p.items| - 1] && m !in q.items[q.done..]
      ensures (g, m) in t.confirmed
    {
      assert Owed(s, g, m);
      assert p.items[p.done..] == [p.items[p.done]] + p.items[p.done + 1..];
    }
  }

  lemma SettleKeeps(site: Site, s: Sys, i: nat, n: nat)
    requires Inv(site, s)
    ensures Inv(site, Next(site, s, Settle(i, n)))
  {
    hide Labelled, Registered, NothingLost, SweptIsSettled, PageCovers;
    var g := site.fleet(i).group;
    var p := LocalOf(s, i);
    if p.Page? && p.done < |p.items| && n == p.items[p.done] {
      assert LocalHolds(site, s, i);
      var t := Settled(s, g, n);
      var q := p.(done := p.done + 1);
      var u := Move(t, i, q);
      SettlingKeepsTables(s, g, n);
      SettledPageCovers(s, g, p, u);
      CoveredCarries(s, u, g, p.offset);
      LateCarries(site, s, t);
      MoveKeeps(site, s, t, i, q);
    }
  }

  /** What a page has earned is covered: the committed watermark passes over nothing undisposed. */
  lemma TopIsCovered(site: Site, s: Sys, i: nat)
    requires Inv(site, s) && LocalOf(s, i).Page?
    ensures var p := LocalOf(s, i);
            p.done <= |p.items| && Earned(s, site.fleet(i).group, Top(p))
  {
    var p := LocalOf(s, i);
    var g := site.fleet(i).group;
    assert LocalHolds(site, s, i);
    if p.done > 0 {
      forall n: nat | Owed(s, g, n) && n <= Top(p)
        ensures (g, n) in s.confirmed
      {
        assert forall k :: p.done <= k < |p.items| ==> p.items[p.done - 1] < p.items[k];
        assert n !in p.items[p.done..];
      }
    }
  }

  lemma AdvanceKeepsTables(s: Sys, g: nat, top: nat)
    requires Tables(s)
    requires g in s.db.offsets && Earned(s, g, top)
    ensures var t := Raise(s, g, top);
            && Tables(t)
            && Grows(s, t) && t.locals == s.locals && t.late == s.late
  {
    var t := Raise(s, g, top);
    assert forall h: nat, n: nat :: Owed(t, h, n) <==> Owed(s, h, n);
    forall h | h in t.db.offsets
      ensures Covered(t, h, t.db.offsets[h]) && GoodRegistration(t, h)
    {
      assert GoodRegistration(s, h) && Covered(s, h, s.db.offsets[h]);
    }
  }

  /** The upsert of an earned watermark, and the insert of any start below the next seq. */
  lemma RaiseKeepsTables(s: Sys, g: nat, top: nat)
    requires Tables(s) && Earned(s, g, top)
    ensures var t := Raise(s, g, top);
            && Tables(t)
            && Grows(s, t) && t.locals == s.locals && t.late == s.late
  {
    if g in s.db.offsets {
      AdvanceKeepsTables(s, g, top);
    } else {
      NewcomerKeepsTables(s, g, top);
    }
  }

  lemma NewcomerKeepsTables(s: Sys, g: nat, start: nat)
    requires Tables(s) && start < s.db.nextSeq
    ensures var t := Register(s, g, start);
            && Tables(t)
            && Grows(s, t) && t.locals == s.locals && t.late == s.late
  {
    hide Labelled, Registered, NothingLost, SweptIsSettled;
    if g in s.db.offsets {
      ItselfGrows(s);
    } else {
      NewcomerIsRegistered(s, g, start);
      NewcomerLosesNothing(s, g, start);
    }
  }

  lemma ItselfGrows(s: Sys)
    ensures Grows(s, s)
  {
  }

  /** A write lands as it would have been answered, and moves no instance. */
  lemma LandedKeeps(site: Site, s: Sys, i: nat, w: Write)
    requires Inv(site, s) && (w.Watermark? ==> Earned(s, site.fleet(i).group, w.top))
    ensures Inv(site, Landed(site, s, i, w)) && Grows(s, Landed(site, s, i, w))
    ensures Landed(site, s, i, w).locals == s.locals && Landed(site, s, i, w).late == s.late
  {
    hide Labelled, Registered, NothingLost, SweptIsSettled, Earned, Grows, Covered;
    var g, t := site.fleet(i).group, Landed(site, s, i, w);
    match w {
      case Watermark(n) => RaiseKeepsTables(s, g, n);
      case Newest =>
        NewestIsLabelled(s);
        NewcomerKeepsTables(s, g, MaxSeq(s.db.log, s.db.nextSeq));
    }
    ItselfGrows(s);
    TablesKeep(site, s, t);
  }

  lemma NewestIsLabelled(s: Sys)
    requires Labelled(s)
    ensures MaxSeq(s.db.log, s.db.nextSeq) < s.db.nextSeq
  {
  }

  /** What an instance may write, it has earned. */
  lemma MayWriteEarned(site: Site, s: Sys, i: nat, n: nat)
    requires Inv(site, s) && MayWrite(LocalOf(s, i), Watermark(n))
    ensures Earned(s, site.fleet(i).group, n)
  {
    if LocalOf(s, i).Page? {
      TopIsCovered(site, s, i);
    } else {
      NothingAtZero(s, site.fleet(i).group);
    }
  }

  lemma NothingAtZero(s: Sys, g: nat)
    requires Labelled(s) && Registered(s)
    ensures Earned(s, g, 0)
  {
    assert g in s.registered ==> GoodRegistration(s, g);
  }

  lemma CommitKeeps(site: Site, s: Sys, i: nat, n: nat)
    requires Inv(site, s) && MayWrite(LocalOf(s, i), Watermark(n))
    ensures Inv(site, Next(site, s, Commit(i, n)))
  {
    hide Labelled, Registered, NothingLost, SweptIsSettled, Grows, Covered;
    MayWriteEarned(site, s, i, n);
    LandedKeeps(site, s, i, Watermark(n));
    SettleAt(site, Landed(site, s, i, Watermark(n)), s, i, n);
  }

  lemma SettleAt(site: Site, t: Sys, s: Sys, i: nat, n: nat)
    requires Inv(site, t) && Grows(s, t) && Earned(s, site.fleet(i).group, n)
    ensures Inv(site, Move(t, i, At(n)))
  {
    CoveredCarries(s, t, site.fleet(i).group, n);
    LeaveFor(site, t, i, At(n));
  }

  lemma LeaveFor(site: Site, s: Sys, i: nat, l: Local)
    requires Inv(site, s) && !l.Page? && (l.At? ==> Earned(s, site.fleet(i).group, l.offset))
    ensures Inv(site, Move(s, i, l))
  {
    MoveKeeps(site, s, s, i, l);
  }

  lemma AbandonKeeps(site: Site, s: Sys, i: nat, w: Write)
    requires Inv(site, s) && MayWrite(LocalOf(s, i), w)
    ensures Inv(site, Next(site, s, Abandon(i, w)))
  {
    var t := Next(site, s, Abandon(i, w));
    if w.Watermark? {
      MayWriteEarned(site, s, i, w.top);
    }
    SameHistory(site, s, t);
  }

  /** Nothing the invariant reads has changed but the writes to land. */
  lemma SameHistory(site: Site, s: Sys, t: Sys)
    requires Inv(site, s) && t == s.(late := t.late) && s.late <= t.late
    requires forall i, n :: (i, Watermark(n)) in t.late ==> Earned(s, site.fleet(i).group, n)
    ensures Inv(site, t)
  {
    assert forall g: nat, n: nat :: Owed(t, g, n) <==> Owed(s, g, n);
    assert forall g :: g in t.db.offsets ==> GoodRegistration(s, g) && Covered(s, g, s.db.offsets[g]);
    assert forall g: nat, n: nat :: Earned(s, g, n) ==> Earned(t, g, n);
    AllCarry(site, s, t);
  }

  lemma LocksAreNoTables(s: Sys, t: Sys)
    requires Tables(s) && t == s.(db := s.db.(locks := t.db.locks))
    ensures Tables(t) && Grows(s, t)
  {
    assert forall g: nat, n: nat :: Owed(t, g, n) <==> Owed(s, g, n);
    assert forall g :: g in t.db.offsets ==> GoodRegistration(s, g) && Covered(s, g, s.db.offsets[g]);
  }

  lemma LockKeeps(site: Site, s: Sys, l: Label)
    requires Inv(site, s) && (l.Acquire? || l.Release?)
    ensures Inv(site, Next(site, s, l))
  {
    hide Labelled, Registered, NothingLost, SweptIsSettled, Grows, LateIsEarned, LocalHolds;
    LocksAreNoTables(s, Next(site, s, l));
    TablesKeep(site, s, Next(site, s, l));
  }

  lemma LatestSeqKeeps(site: Site, s: Sys, i: nat)
    requires Inv(site, s)
    ensures Inv(site, Next(site, s, RegisterLatest(i)))
  {
    hide Inv;
    LandedKeeps(site, s, i, Newest);
    LeaveFor(site, Landed(site, s, i, Newest), i, Registering);
  }

  lemma StepKeeps(site: Site, s: Sys, l: Label)
    requires Inv(site, s)
    ensures Inv(site, Next(site, s, l))
  {
    hide Labelled, Registered, NothingLost, SweptIsSettled, LocalHolds;
    match l
    case Publish(row) => if Fresh(s, row) { PublishKeeps(site, s, row); }
    case SequencePass(limit, late) => PassKeeps(site, s, limit, late);
    case Sweep(victims, cutoff, limit) =>
      if Sweepable(site, s.db, victims, cutoff, limit) { SweepKeeps(site, s, victims, cutoff, limit); }
    case Acquire(_, _, _) => LockKeeps(site, s, l);
    case Release(_) => LockKeeps(site, s, l);
    case ReadOffset(i) => ReadKeeps(site, s, i);
    case RegisterLatest(i) => LatestSeqKeeps(site, s, i);
    case List(i, limit) => if LocalOf(s, i).At? { ListKeeps(site, s, i, limit); }
    case Reach(i, n) => ReachKeeps(site, s, i, n);
    case Settle(i, n) => SettleKeeps(site, s, i, n);
    case Commit(i, n) => if MayWrite(LocalOf(s, i), Watermark(n)) { CommitKeeps(site, s, i, n); }
    case Abandon(i, w) => if MayWrite(LocalOf(s, i), w) { AbandonKeeps(site, s, i, w); }
    case Land(i, w) => if (i, w) in s.late { LandedKeeps(site, s, i, w); }
    case Finish(i) => LeaveFor(site, s, i, Idle);
    case Crash(i) => LeaveFor(site, s, i, Dead);
  }

  lemma {:induction false} EveryRunKeeps(site: Site, run: seq<Label>)
    ensures Inv(site, Exec(site, run))
  {
    if run != [] {
      EveryRunKeeps(site, run[..|run| - 1]);
      StepKeeps(site, Exec(site, run[..|run| - 1]), run[|run| - 1]);
    }
  }
}
