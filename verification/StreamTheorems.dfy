/** The promises of the change-stream outbox, for every run of any number of processes. */
module StreamTheorems {
  import opened Prelude
  import opened TokenKeys
  import opened TokenStores
  import opened StreamProtocol

  // ----- no loss

  /** The stored position has passed only disposed events, from the latest fresh start on. */
  lemma StoredPositionPassesOnlyDisposedEvents(site: Site, run: seq<Label>, e: nat)
    requires Tidy(site, INIT, run)
    requires var s := Play(site, INIT, run); s.row.Some? && s.anchor <= e < Stored(site, s).value
    ensures e in Play(site, INIT, run).confirmed
  {
    EveryTidyRunKeeps(site, run);
  }

  predicate StartsFresh(s: Sys, l: Label) {
    l.Watch? && CursorOf(s, l.who) == Loaded(None)
  }

  ghost predicate NeverFresh(site: Site, s: Sys, run: seq<Label>) {
    run == []
    || (NeverFresh(site, s, run[..|run| - 1]) && !StartsFresh(Play(site, s, run[..|run| - 1]), run[|run| - 1]))
  }

  lemma {:induction false} AnchorStays(site: Site, s: Sys, run: seq<Label>)
    requires NeverFresh(site, s, run)
    ensures Play(site, s, run).anchor == s.anchor
  {
    if run != [] {
      AnchorStays(site, s, run[..|run| - 1]);
    }
  }

  /**
    Nothing between the first stored token and any later one is lost, provided every fresh start
    began at or before the first token and none comes after it.
   */
  lemma NothingIsLostAfterTheFirstToken(site: Site, run: seq<Label>, more: seq<Label>, e: nat)
    requires Tidy(site, INIT, run + more)
    requires var s := Play(site, INIT, run);
             s.row.Some? && s.anchor <= Stored(site, s).value <= e && NeverFresh(site, s, more)
    requires var t := Play(site, INIT, run + more); t.row.Some? && e < Stored(site, t).value
    ensures e in Play(site, INIT, run + more).confirmed
  {
    PlaySplits(site, INIT, run, more);
    AnchorStays(site, Play(site, INIT, run), more);
    EveryTidyRunKeeps(site, run + more);
  }

  // ----- when an event can still be delivered

  /** Process `i` would serve event `e` again without anyone else's help. */
  predicate StandsBefore(s: Sys, i: nat, e: nat) {
    var c := CursorOf(s, i);
    || (c.Open? && c.safe <= e)
    || (c.Loaded? && c.from.Some? && c.from.value <= e)
    || (s.row.None? && LocalOf(s, i).baseline.Some? && LocalOf(s, i).baseline.value <= e)
  }

  ghost predicate Within(site: Site, s: Sys, e: nat) {
    || e in s.confirmed
    || (s.row.Some? && Stored(site, s).value <= e)
    || exists i: nat :: StandsBefore(s, i, e)
  }

  ghost predicate InOrder(s: Sys) {
    forall i: nat :: CursorOf(s, i).Open? ==> CursorOf(s, i).safe <= CursorOf(s, i).next
  }

  /** No save given up on stands at or before event `e`. */
  ghost predicate NoneLate(site: Site, s: Sys, e: nat) {
    forall token, time :: (token, time) in s.late ==> e < site.place(token)
  }

  lemma StepPastStaysPast(site: Site, s: Sys, l: Label, e: nat)
    requires e < s.oplog && !Within(site, s, e)
    requires InOrder(s) && NoneLate(site, s, e)
    ensures var t := Next(site, s, l);
            e < t.oplog && !Within(site, t, e) && InOrder(t) && NoneLate(site, t, e)
  {
    var t := Next(site, s, l);
    assert l.Insert? || l.Land? || !StandsBefore(s, l.who, e);
    forall i: nat
      ensures !StandsBefore(t, i, e)
      ensures CursorOf(t, i).Open? ==> CursorOf(t, i).safe <= CursorOf(t, i).next
    {
      assert !StandsBefore(s, i, e);
      if Actor(l) != Some(i) {
        assert LocalOf(t, i) == LocalOf(s, i);
      }
    }
  }

  /** Once every position lies past an undisposed event, no continuation delivers it. */
  lemma {:induction false} PastStaysPast(site: Site, s: Sys, more: seq<Label>, e: nat)
    requires e < s.oplog && !Within(site, s, e)
    requires InOrder(s) && NoneLate(site, s, e)
    ensures var t := Play(site, s, more);
            e < t.oplog && !Within(site, t, e) && InOrder(t) && NoneLate(site, t, e)
  {
    if more != [] {
      PastStaysPast(site, s, more[..|more| - 1], e);
      StepPastStaysPast(site, Play(site, s, more[..|more| - 1]), more[|more| - 1], e);
    }
  }

  /** Serve and dispose of the `n` events from `p` on. */
  function Drive(i: nat, p: nat, n: nat): seq<Label> {
    if n == 0 then [] else Drive(i, p, n - 1) + [Pull(i)] + [Dispose(i, p + n - 1)]
  }

  lemma {:induction false} DriveDelivers(site: Site, s: Sys, i: nat, p: nat, n: nat)
    requires CursorOf(s, i) == Open(p, p) && p + n <= s.oplog
    ensures Tidy(site, s, Drive(i, p, n)) && Served(s, Play(site, s, Drive(i, p, n)), i, p, n)
  {
    hide Next, Play, Tidy, Served;
    if n == 0 {
      DriveNothing(site, s, i, p);
    } else {
      DriveDelivers(site, s, i, p, n - 1);
      assert Served(s, Play(site, s, Drive(i, p, n - 1)), i, p, n - 1);
      ServedSoFar(s, Play(site, s, Drive(i, p, n - 1)), i, p, n - 1);
      ServeOne(site, s, Drive(i, p, n - 1), i, p + n - 1);
      ServedOne(s, Play(site, s, Drive(i, p, n - 1)), Play(site, s, Drive(i, p, n)), i, p, n);
    }
  }

  lemma DriveNothing(site: Site, s: Sys, i: nat, p: nat)
    requires CursorOf(s, i) == Open(p, p)
    ensures Tidy(site, s, Drive(i, p, 0)) && Served(s, Play(site, s, Drive(i, p, 0)), i, p, 0)
  {
  }

  lemma ServedSoFar(s: Sys, t: Sys, i: nat, p: nat, n: nat)
    requires Served(s, t, i, p, n)
    ensures t.oplog == s.oplog && CursorOf(t, i) == Open(p + n, p + n)
  {
  }

  ghost predicate Served(s: Sys, t: Sys, i: nat, p: nat, n: nat) {
    && t.oplog == s.oplog && CursorOf(t, i) == Open(p + n, p + n)
    && forall e: nat :: p <= e < p + n ==> e in t.confirmed
  }

  lemma ServedOne(s: Sys, t: Sys, u: Sys, i: nat, p: nat, n: nat)
    requires n > 0 && Served(s, t, i, p, n - 1)
    requires u.oplog == t.oplog && CursorOf(u, i) == Open(p + n, p + n) && u.confirmed == t.confirmed + {p + n - 1}
    ensures Served(s, u, i, p, n)
  {
  }

  lemma ServeOne(site: Site, s: Sys, run: seq<Label>, i: nat, p: nat)
    requires Tidy(site, s, run) && CursorOf(Play(site, s, run), i) == Open(p, p) && p < Play(site, s, run).oplog
    ensures var t, u := Play(site, s, run), Play(site, s, run + [Pull(i)] + [Dispose(i, p)]);
            && Tidy(site, s, run + [Pull(i)] + [Dispose(i, p)]) && u.oplog == t.oplog
            && CursorOf(u, i) == Open(p + 1, p + 1) && u.confirmed == t.confirmed + {p}
  {
    PlayOne(site, s, run, Pull(i));
    PlayOne(site, s, run + [Pull(i)], Dispose(i, p));
    TidyOne(site, s, run, Pull(i));
    TidyOne(site, s, run + [Pull(i)], Dispose(i, p));
  }

  ghost predicate Delivers(site: Site, s: Sys, more: seq<Label>, e: nat) {
    Tidy(site, s, more) && e in Play(site, s, more).confirmed
  }

  /** One harmless step on the way to a delivery. */
  lemma After(site: Site, s: Sys, l: Label, more: seq<Label>, e: nat)
    requires !Skips(site, s, l) && Delivers(site, Next(site, s, l), more, e)
    ensures Delivers(site, s, [l] + more, e)
  {
    assert [] + [l] == [l];
    PlayOne(site, s, [], l);
    TidyOne(site, s, [], l);
    PlaySplits(site, s, [l], more);
    TidySplits(site, s, [l], more);
  }

  lemma OpenDelivers(site: Site, s: Sys, i: nat, e: nat) returns (more: seq<Label>)
    requires e < s.oplog && CursorOf(s, i).Open?
    requires var c := CursorOf(s, i); c.safe <= e && c.safe <= c.next <= c.safe + 1 && c.next <= s.oplog
    ensures Delivers(site, s, more, e)
  {
    hide Play, Tidy, Drive;
    var c := CursorOf(s, i);
    if c.next == c.safe {
      more := Drive(i, c.safe, e + 1 - c.safe);
      DriveDelivers(site, s, i, c.safe, e + 1 - c.safe);
    } else {
      var t := Next(site, s, Dispose(i, c.safe));
      assert CursorOf(t, i) == Open(c.next, c.next) && c.safe in t.confirmed;
      var rest := Drive(i, c.next, e - c.safe);
      DriveDelivers(site, t, i, c.next, e - c.safe);
      DeliveredStays(site, t, rest, c.safe);
      After(site, s, Dispose(i, c.safe), rest, e);
      more := [Dispose(i, c.safe)] + rest;
    }
  }

  lemma {:induction false} DeliveredStays(site: Site, s: Sys, more: seq<Label>, e: nat)
    requires e in s.confirmed
    ensures e in Play(site, s, more).confirmed
  {
    if more != [] {
      DeliveredStays(site, s, more[..|more| - 1], e);
    }
  }

  lemma LoadedDelivers(site: Site, s: Sys, i: nat, e: nat) returns (more: seq<Label>)
    requires e < s.oplog && CursorOf(s, i).Loaded? && CursorOf(s, i).from.Some? && CursorOf(s, i).from.value <= e
    ensures Delivers(site, s, more, e)
  {
    var rest := OpenDelivers(site, Next(site, s, Watch(i)), i, e);
    After(site, s, Watch(i), rest, e);
    more := [Watch(i)] + rest;
  }

  /** Closing and loading again resumes from the store, or from the process's own baseline. */
  lemma ReopenDelivers(site: Site, s: Sys, i: nat, e: nat) returns (more: seq<Label>)
    requires e < s.oplog && ResumeFrom(site, s, i).Some? && ResumeFrom(site, s, i).value <= e
    ensures Delivers(site, s, more, e)
  {
    var closed := Next(site, s, Close(i));
    var loaded := Next(site, closed, Load(i));
    var rest := LoadedDelivers(site, loaded, i, e);
    After(site, closed, Load(i), rest, e);
    After(site, s, Close(i), [Load(i)] + rest, e);
    more := [Close(i)] + ([Load(i)] + rest);
  }

  lemma WithinDelivers(site: Site, run: seq<Label>, e: nat)
    requires Tidy(site, INIT, run) && e < Play(site, INIT, run).oplog && Within(site, Play(site, INIT, run), e)
    ensures exists more :: Delivers(site, Play(site, INIT, run), more, e)
  {
    var s := Play(site, INIT, run);
    EveryTidyRunKeeps(site, run);
    if e in s.confirmed {
      assert Delivers(site, s, [], e);
    } else if s.row.Some? && Stored(site, s).value <= e {
      var more := ReopenDelivers(site, s, 0, e);
    } else {
      var i: nat :| StandsBefore(s, i, e);
      var c := CursorOf(s, i);
      assert LocalHolds(s, i);
      if c.Open? && c.safe <= e {
        var more := OpenDelivers(site, s, i, e);
      } else if c.Loaded? && c.from.Some? && c.from.value <= e {
        var more := LoadedDelivers(site, s, i, e);
      } else {
        var more := ReopenDelivers(site, s, i, e);
      }
    }
  }

  /**
    An event can still be delivered exactly while some position is at or before it. A save that is
    yet to land can be such a position too.
   */
  lemma DeliverableExactlyWhileWithin(site: Site, run: seq<Label>, e: nat)
    requires Tidy(site, INIT, run) && e < Play(site, INIT, run).oplog
    requires NoneLate(site, Play(site, INIT, run), e)
    ensures var s := Play(site, INIT, run);
            (exists more :: Delivers(site, s, more, e)) <==> Within(site, s, e)
  {
    var s := Play(site, INIT, run);
    if Within(site, s, e) {
      WithinDelivers(site, run, e);
    } else {
      EveryTidyRunKeeps(site, run);
      forall i: nat
        ensures CursorOf(s, i).Open? ==> CursorOf(s, i).safe <= CursorOf(s, i).next
      {
        assert LocalHolds(s, i);
      }
      forall more
        ensures !Delivers(site, s, more, e)
      {
        PastStaysPast(site, s, more, e);
      }
    }
  }

  /** Of every tidy run: what can still be delivered lies within reach, or behind a save that is yet to land. */
  lemma DeliverableIsWithinOrLate(site: Site, run: seq<Label>, more: seq<Label>, e: nat)
    requires Tidy(site, INIT, run) && e < Play(site, INIT, run).oplog
    requires Delivers(site, Play(site, INIT, run), more, e)
    ensures var s := Play(site, INIT, run); Within(site, s, e) || !NoneLate(site, s, e)
  {
    if NoneLate(site, Play(site, INIT, run), e) {
      DeliverableExactlyWhileWithin(site, run, e);
    }
  }

  /** A group with a stored token can still deliver everything from its latest fresh start on. */
  lemma StoredGroupLosesNothing(site: Site, run: seq<Label>, e: nat)
    requires Tidy(site, INIT, run)
    requires var s := Play(site, INIT, run); s.row.Some? && s.anchor <= e < s.oplog
    ensures exists more :: Delivers(site, Play(site, INIT, run), more, e)
  {
    EveryTidyRunKeeps(site, run);
    WithinDelivers(site, run, e);
  }

  predicate Disposes(l: Label, e: nat) { l.Dispose? && l.item == e }

  /** An event counts as disposed of only because a process disposed of it. */
  lemma {:induction false} ConfirmedWasDisposed(site: Site, run: seq<Label>, e: nat)
    requires e in Play(site, INIT, run).confirmed
    ensures exists k :: 0 <= k < |run| && Disposes(run[k], e)
  {
    var init := run[..|run| - 1];
    if e in Play(site, INIT, init).confirmed {
      ConfirmedWasDisposed(site, init, e);
      var k :| 0 <= k < |init| && Disposes(init[k], e);
      assert Disposes(run[k], e);
    } else {
      assert Disposes(run[|run| - 1], e);
    }
  }

  // ----- order

  /** Whatever may have reached the broker came after everything from the fresh start to it. */
  lemma DeliveriesAreDownwardClosed(site: Site, run: seq<Label>, m: nat, e: nat)
    requires Tidy(site, INIT, run)
    requires var s := Play(site, INIT, run); e in s.touched && s.anchor <= m < e
    ensures m in Play(site, INIT, run).confirmed && m in Play(site, INIT, run).touched
  {
    EveryTidyRunKeeps(site, run);
    assert Covered(Play(site, INIT, run), e);
  }

  // ----- the fresh start

  function Inserts(n: nat): seq<Label> {
    if n == 0 then [] else Inserts(n - 1) + [Insert]
  }

  lemma {:induction false} InsertsMove(site: Site, s: Sys, n: nat)
    ensures Tidy(site, s, Inserts(n)) && Play(site, s, Inserts(n)) == s.(oplog := s.oplog + n)
  {
    hide Play, Tidy;
    if n == 0 {
      NothingMoves(site, s);
    } else {
      InsertsMove(site, s, n - 1);
      PlayOne(site, s, Inserts(n - 1), Insert);
      TidyOne(site, s, Inserts(n - 1), Insert);
    }
  }

  lemma NothingMoves(site: Site, s: Sys)
    ensures Tidy(site, s, []) && Play(site, s, []) == s
  {
  }

  /** What a process does between a fresh start and its first stored token. */
  function FreshSave(i: nat, token: string, time: int): seq<Label> {
    [Watch(i), Remember(i), Persist(i, token, time)]
  }

  lemma FreshSaveStores(site: Site, s: Sys, i: nat, token: string, time: int) returns (t: Sys)
    requires CursorOf(s, i) == Loaded(None) && token != "" && site.place(token) == s.oplog
    requires SaveResult(site, s, token, time).1
    ensures t == Play(site, s, FreshSave(i, token, time)) && Tidy(site, s, FreshSave(i, token, time))
    ensures t.row == Some(TokenRow(token, KeyOf(site.payload(token)), Some(time)))
    ensures t.oplog == s.oplog && t.confirmed == s.confirmed && t.late == s.late
    ensures LocalOf(t, i) == Local(None, Open(s.oplog, s.oplog))
    ensures forall k: nat :: k != i ==> LocalOf(t, k) == LocalOf(s, k)
  {
    var last := Persist(i, token, time);
    var t1 := Next(site, s, Watch(i));
    var t2 := Next(site, t1, Remember(i));
    t := Next(site, t2, last);
    PlayThree(site, s, Watch(i), Remember(i), last);
    TidyThree(site, s, Watch(i), Remember(i), last);
  }

  lemma PlayThree(site: Site, s: Sys, a: Label, b: Label, c: Label)
    ensures Play(site, s, [a]) == Next(site, s, a)
    ensures Play(site, s, [a, b]) == Next(site, Next(site, s, a), b)
    ensures Play(site, s, [a, b, c]) == Next(site, Next(site, Next(site, s, a), b), c)
  {
    assert [] + [a] == [a] && [a] + [b] == [a, b] && [a, b] + [c] == [a, b, c];
    PlayOne(site, s, [], a);
    PlayOne(site, s, [a], b);
    PlayOne(site, s, [a, b], c);
  }

  lemma TidyThree(site: Site, s: Sys, a: Label, b: Label, c: Label)
    ensures Tidy(site, s, [a, b, c]) <==>
              && !Skips(site, s, a) && !Skips(site, Next(site, s, a), b)
              && !Skips(site, Next(site, Next(site, s, a), b), c)
  {
    assert [] + [a] == [a] && [a] + [b] == [a, b] && [a, b] + [c] == [a, b, c];
    PlayThree(site, s, a, b, c);
    TidyOne(site, s, [], a);
    TidyOne(site, s, [a], b);
    TidyOne(site, s, [a, b], c);
  }

  /** Two processes that found no token: the first start and save, `gap` events, the second of both. */
  function Race(i: nat, j: nat, n: nat, gap: nat, early: string, late: string, time: int): seq<Label> {
    Inserts(n) + [Load(i)] + [Load(j)] + FreshSave(i, early, time) + Inserts(gap) + FreshSave(j, late, time)
    + [Close(i)]
  }

  /**
    The run of the race, step by step: it is tidy, and leaves every position past the `gap`
    events, none of which was delivered.
   */
  lemma RaceRuns(site: Site, i: nat, j: nat, n: nat, gap: nat, early: string, late: string, time: int) returns (t: Sys)
    requires i != j && early != "" && site.place(early) == n && late != "" && site.place(late) == n + gap
    requires GivesWay(TokenRow(early, KeyOf(site.payload(early)), Some(time)), KeyOf(site.payload(late)), time)
    ensures var run := Race(i, j, n, gap, early, late, time);
            Tidy(site, INIT, run) && t == Play(site, INIT, run)
    ensures t.oplog == n + gap && t.confirmed == {} && t.late == {} && Stored(site, t) == Some(n + gap)
    ensures LocalOf(t, j) == Local(None, Open(n + gap, n + gap))
    ensures forall k: nat :: k != j ==> LocalOf(t, k) == Local(None, Closed)
  {
    hide Play, Tidy, Inserts, FreshSave;
    var r1 := Inserts(n);
    var r2 := r1 + [Load(i)] + [Load(j)];
    var r3 := r2 + FreshSave(i, early, time);
    var r4 := r3 + Inserts(gap);
    var r5 := r4 + FreshSave(j, late, time);
    InsertsMove(site, INIT, n);
    var s2 := LoadBoth(site, r1, i, j);
    PlaySplits(site, INIT, r2, FreshSave(i, early, time));
    TidySplits(site, INIT, r2, FreshSave(i, early, time));
    var s3 := FreshSaveStores(site, s2, i, early, time);
    PlaySplits(site, INIT, r3, Inserts(gap));
    TidySplits(site, INIT, r3, Inserts(gap));
    InsertsMove(site, s3, gap);
    var s4 := s3.(oplog := n + gap);
    assert LocalOf(s4, j) == LocalOf(s3, j);
    PlaySplits(site, INIT, r4, FreshSave(j, late, time));
    TidySplits(site, INIT, r4, FreshSave(j, late, time));
    var s5 := FreshSaveStores(site, s4, j, late, time);
    PlayOne(site, INIT, r5, Close(i));
    TidyOne(site, INIT, r5, Close(i));
    t := Next(site, s5, Close(i));
    forall k: nat | k != j
      ensures LocalOf(t, k) == Local(None, Closed)
    {
      assert LocalOf(s5, k) == LocalOf(s4, k) && LocalOf(s4, k) == LocalOf(s3, k);
      assert k != i ==> LocalOf(s3, k) == LocalOf(s2, k);
    }
  }

  lemma LoadBoth(site: Site, run: seq<Label>, i: nat, j: nat) returns (t: Sys)
    requires i != j && Tidy(site, INIT, run)
    requires var s := Play(site, INIT, run); s == INIT.(oplog := s.oplog)
    ensures t == Play(site, INIT, run + [Load(i)] + [Load(j)]) && Tidy(site, INIT, run + [Load(i)] + [Load(j)])
    ensures t.oplog == Play(site, INIT, run).oplog && t.confirmed == {} && t.late == {} && t.row.None?
    ensures forall k: nat :: LocalOf(t, k) == Local(None, if k == i || k == j then Loaded(None) else Closed)
  {
    PlayOne(site, INIT, run, Load(i));
    PlayOne(site, INIT, run + [Load(i)], Load(j));
    TidyOne(site, INIT, run, Load(i));
    TidyOne(site, INIT, run + [Load(i)], Load(j));
    t := Next(site, Next(site, Play(site, INIT, run), Load(i)), Load(j));
  }

  /** A second fresh start stores over the first, and what happened between the two is gone for good. */
  lemma RacingFreshStartLoses(site: Site, i: nat, j: nat, n: nat, gap: nat, early: string, late: string, time: int,
                              e: nat)
    requires i != j && early != "" && site.place(early) == n && late != "" && site.place(late) == n + gap
    requires GivesWay(TokenRow(early, KeyOf(site.payload(early)), Some(time)), KeyOf(site.payload(late)), time)
    requires n <= e < n + gap
    ensures var run := Race(i, j, n, gap, early, late, time);
            && Tidy(site, INIT, run) && Stored(site, Play(site, INIT, run)) == Some(n + gap)
            && forall more :: e !in Play(site, INIT, run + more).confirmed
  {
    var run := Race(i, j, n, gap, early, late, time);
    var t := RaceRuns(site, i, j, n, gap, early, late, time);
    forall more
      ensures e !in Play(site, INIT, run + more).confirmed
    {
      forall k: nat
        ensures !StandsBefore(t, k, e)
        ensures CursorOf(t, k).Open? ==> CursorOf(t, k).safe <= CursorOf(t, k).next
      {
        assert k != j ==> LocalOf(t, k) == Local(None, Closed);
      }
      PlaySplits(site, INIT, run, more);
      PastStaysPast(site, t, more, e);
    }
  }

  // ----- a cursor that stopped short

  /** A fresh start at `n`, and a cursor that has served event `n` and not disposed of it. */
  function StopShort(i: nat, n: nat): seq<Label> {
    Inserts(n) + [Load(i)] + [Watch(i)] + [Insert] + [Insert] + [Pull(i)]
  }

  lemma StopShortRuns(site: Site, i: nat, n: nat) returns (t: Sys)
    ensures t == Play(site, INIT, StopShort(i, n)) && Tidy(site, INIT, StopShort(i, n))
    ensures CursorOf(t, i) == Open(n + 1, n) && t.oplog == n + 2 && t.anchor == n
    ensures t.confirmed == {} && t.late == {} && t.row.None?
  {
    InsertsMove(site, INIT, n);
    var r0 := Inserts(n);
    var r1, r2, r3, r4 := r0 + [Load(i)], r0 + [Load(i)] + [Watch(i)], r0 + [Load(i)] + [Watch(i)] + [Insert],
                          r0 + [Load(i)] + [Watch(i)] + [Insert] + [Insert];
    StepOn(site, r0, Load(i));
    StepOn(site, r1, Watch(i));
    StepOn(site, r2, Insert);
    StepOn(site, r3, Insert);
    StepOn(site, r4, Pull(i));
    t := Play(site, INIT, StopShort(i, n));
  }

  lemma StepOn(site: Site, run: seq<Label>, l: Label)
    ensures Play(site, INIT, run + [l]) == Next(site, Play(site, INIT, run), l)
    ensures Tidy(site, INIT, run + [l]) <==> Tidy(site, INIT, run) && !Skips(site, Play(site, INIT, run), l)
  {
    PlayOne(site, INIT, run, l);
    TidyOne(site, INIT, run, l);
  }

  /**
    Driving RunOnce past an error without closing the stream: the next event is served and
    disposed of, and the position stored is beyond one that was not.
   */
  lemma TornCursorSkipsItsEvent(site: Site, i: nat, n: nat, token: string, time: int)
    requires token != "" && site.place(token) == n + 2
    ensures var run := StopShort(i, n);
            var more := [Pull(i), Dispose(i, n + 1), Persist(i, token, time)];
            var t := Play(site, INIT, run + more);
            && Tidy(site, INIT, run) && Skips(site, Play(site, INIT, run), Pull(i)) && !Tidy(site, INIT, run + more)
            && Stored(site, t) == Some(n + 2) && t.anchor <= n && n !in t.confirmed
  {
    var s := StopShortRuns(site, i, n);
    var last := Persist(i, token, time);
    var t := Next(site, s, Pull(i));
    var u := Next(site, t, Dispose(i, n + 1));
    assert CursorOf(u, i) == Open(n + 2, n + 2) && u.row == s.row;
    PlayThree(site, s, Pull(i), Dispose(i, n + 1), last);
    TidyThree(site, s, Pull(i), Dispose(i, n + 1), last);
    PlaySplits(site, INIT, StopShort(i, n), [Pull(i), Dispose(i, n + 1), last]);
    TidySplits(site, INIT, StopShort(i, n), [Pull(i), Dispose(i, n + 1), last]);
  }

  ghost predicate HasToken(site: Site, p: nat) {
    exists token :: token != "" && site.place(token) == p
  }

  /** The guard lets `token` follow `earlier`, whatever time that one was stored with. */
  ghost predicate Follows(site: Site, token: string, earlier: string, stored: int) {
    exists time ::
      GivesWay(TokenRow(earlier, KeyOf(site.payload(earlier)), Some(stored)), KeyOf(site.payload(token)), time)
  }

  /** Every position has a token, and the guard lets it follow those of earlier positions. */
  ghost predicate Resumable(site: Site) {
    && (forall p: nat :: HasToken(site, p))
    && (forall token, earlier, stored ::
          token != "" && earlier != "" && site.place(earlier) <= site.place(token)
          ==> Follows(site, token, earlier, stored))
  }

  /** The stored position lies past an event that is owed and that nobody disposed of. */
  ghost predicate Loses(site: Site, s: Sys) {
    s.row.Some? && exists e: nat :: s.anchor <= e < Stored(site, s).value && e !in s.confirmed
  }

  /** From `s` on these steps skip nothing, and at their end an event is lost all the same. */
  ghost predicate ComesToLoss(site: Site, s: Sys, more: seq<Label>) {
    Tidy(site, s, more) && Loses(site, Play(site, s, more))
  }

  /** The event behind the skipped one is disposed of, and the position past both is stored. */
  lemma PullPastLoses(site: Site, s: Sys, i: nat) returns (more: seq<Label>)
    requires Resumable(site) && Sane(site, s) && Skips(site, s, Pull(i))
    requires s.row.Some? ==> Covered(s, Stored(site, s).value)
    ensures ComesToLoss(site, Next(site, s, Pull(i)), more)
  {
    hide GivesWay, KeyOf;
    var t := Next(site, s, Pull(i));
    var p := CursorOf(t, i).next;
    var u := Next(site, t, Dispose(i, p - 1));
    assert HasToken(site, p);
    var token :| token != "" && site.place(token) == p;
    var time := 0;
    if s.row.Some? {
      var row := s.row.value;
      assert Follows(site, token, row.token, row.time.value);
      time :| GivesWay(TokenRow(row.token, KeyOf(site.payload(row.token)), Some(row.time.value)),
                       KeyOf(site.payload(token)), time);
      assert row == TokenRow(row.token, KeyOf(site.payload(row.token)), Some(row.time.value));
    }
    SavedPastLoses(site, s, i, t, u, token, time);
    more := [Dispose(i, p - 1), Persist(i, token, time)];
    TwoSteps(site, t, more[0], more[1]);
  }

  lemma SavedPastLoses(site: Site, s: Sys, i: nat, t: Sys, u: Sys, token: string, time: int)
    requires Sane(site, s) && Skips(site, s, Pull(i)) && t == Next(site, s, Pull(i))
    requires var p := CursorOf(t, i).next;
             u == Next(site, t, Dispose(i, p - 1)) && token != "" && site.place(token) == p
    requires SaveResult(site, s, token, time).1
    ensures var p := CursorOf(t, i).next;
            !Skips(site, t, Dispose(i, p - 1)) && !Skips(site, u, Persist(i, token, time))
    ensures Loses(site, Next(site, u, Persist(i, token, time)))
  {
    hide KeyOf;
    var p, v := CursorOf(t, i).next, Next(site, u, Persist(i, token, time));
    assert CursorOf(u, i) == Open(p, p) && u.row == s.row;
    assert v.anchor <= p - 2 < Stored(site, v).value && p - 2 !in v.confirmed;
  }

  lemma TwoSteps(site: Site, s: Sys, a: Label, b: Label)
    ensures Play(site, s, [a, b]) == Next(site, Next(site, s, a), b)
    ensures Tidy(site, s, [a, b]) <==> !Skips(site, s, a) && !Skips(site, Next(site, s, a), b)
  {
    hide Next, Skips;
    assert [] + [a] == [a] && [a] + [b] == [a, b];
    PlayOne(site, s, [], a);
    PlayOne(site, s, [a], b);
    TidyOne(site, s, [], a);
    TidyOne(site, s, [a], b);
  }

  lemma SkippedSaveLoses(site: Site, s: Sys, l: Label)
    requires Skips(site, s, l) && !l.Pull?
    ensures ComesToLoss(site, Next(site, s, l), [])
  {
    var t := Next(site, s, l);
    var p := Stored(site, t).value;
    assert t.anchor <= p - 1 < p && p - 1 !in t.confirmed;
  }

  /**
    Skipping is exactly what loses an event: behind a run that skipped nothing, one more step lets
    some continuation that skips nothing store a position past an undisposed event, if and only if
    that step is a skip.
   */
  lemma OneSkipIsWhatLoses(site: Site, run: seq<Label>, l: Label)
    requires Resumable(site) && Tidy(site, INIT, run)
    ensures var s := Play(site, INIT, run);
            Skips(site, s, l) <==> exists more :: ComesToLoss(site, Next(site, s, l), more)
  {
    hide Next, Skips, Play, Tidy, Sane, ComesToLoss;
    var s := Play(site, INIT, run);
    EveryTidyRunKeeps(site, run);
    EveryRunIsSane(site, run);
    if Skips(site, s, l) {
      if l.Pull? {
        var more := PullPastLoses(site, s, l.who);
      } else {
        SkippedSaveLoses(site, s, l);
      }
    } else {
      StepOn(site, run, l);
      forall more
        ensures !ComesToLoss(site, Next(site, s, l), more)
      {
        NoLossOnwards(site, run + [l], more);
      }
    }
  }

  lemma NoLossOnwards(site: Site, run: seq<Label>, more: seq<Label>)
    requires Tidy(site, INIT, run)
    ensures !ComesToLoss(site, Play(site, INIT, run), more)
  {
    PlaySplits(site, INIT, run, more);
    TidySplits(site, INIT, run, more);
    if Tidy(site, INIT, run + more) {
      EveryTidyRunKeeps(site, run + more);
    }
  }

  // ----- the stored position

  /** The server orders tokens by key, and positions by tokens. */
  ghost predicate KeysFollowPlaces(site: Site) {
    forall a, b {:trigger KeyOf(site.payload(a)), KeyOf(site.payload(b))} ::
      (var x, y := KeyOf(site.payload(a)), KeyOf(site.payload(b));
       x.Some? && y.Some? && TextLe(x.value, y.value)) ==> site.place(a) <= site.place(b)
  }

  ghost predicate SavesKeyed(site: Site, run: seq<Label>) {
    forall k :: 0 <= k < |run| && (run[k].Persist? || run[k].Abandon?) ==> KeyOf(site.payload(run[k].token)).Some?
  }

  ghost predicate RowKeyed(site: Site, s: Sys) {
    && (s.row.Some? ==> s.row.value.key == KeyOf(site.payload(s.row.value.token)) && s.row.value.key.Some?)
    && (forall token, time :: (token, time) in s.late ==> KeyOf(site.payload(token)).Some?)
  }

  lemma {:induction false} KeyedRunsKeepTheRowKeyed(site: Site, run: seq<Label>)
    requires SavesKeyed(site, run)
    ensures RowKeyed(site, Play(site, INIT, run))
  {
    if run != [] {
      var init := run[..|run| - 1];
      assert forall k :: 0 <= k < |init| ==> init[k] == run[k];
      KeyedRunsKeepTheRowKeyed(site, init);
      var last := run[|run| - 1];
      assert last.Persist? || last.Abandon? ==> KeyOf(site.payload(last.token)).Some?;
    }
  }

  /** With ordered keys no save, from however stale a leader, takes the stored position back. */
  lemma {:induction false} StoredPositionNeverFalls(site: Site, run: seq<Label>, more: seq<Label>)
    requires KeysFollowPlaces(site) && SavesKeyed(site, run + more)
    requires Play(site, INIT, run).row.Some?
    ensures var s, t := Play(site, INIT, run), Play(site, INIT, run + more);
            t.row.Some? && Stored(site, s).value <= Stored(site, t).value
  {
    if more == [] {
      assert run + more == run;
    } else {
      var k := |more| - 1;
      var before := run + more[..k];
      assert run + more == before + [more[k]];
      assert forall j :: 0 <= j < |before| ==> before[j] == (run + more)[j];
      assert (run + more)[|before|] == more[k];
      StoredPositionNeverFalls(site, run, more[..k]);
      KeyedRunsKeepTheRowKeyed(site, before);
      PlayOne(site, INIT, before, more[k]);
      KeyedSaveMovesOn(site, Play(site, INIT, before), more[k]);
    }
  }

  lemma KeyedSaveMovesOn(site: Site, s: Sys, l: Label)
    requires KeysFollowPlaces(site) && RowKeyed(site, s) && s.row.Some?
    requires l.Persist? || l.Abandon? ==> KeyOf(site.payload(l.token)).Some?
    ensures var t := Next(site, s, l); t.row.Some? && Stored(site, s).value <= Stored(site, t).value
  {
    if l.Persist? || (l.Land? && (l.token, l.time) in s.late) {
      var x, y := KeyOf(site.payload(s.row.value.token)), KeyOf(site.payload(l.token));
      if TextLe(x.value, y.value) {
        assert site.place(s.row.value.token) <= site.place(l.token);
      }
    }
  }
}
