/** The stuck-lane tracker, and when it escalates. */
module StuckLanes {
  import opened Prelude

  /** Nanoseconds. */
  const STUCK_ESCALATE_AFTER := 900_000_000_000

  datatype Call<P> =
    | StuckAt(pos: P, identified: bool, now: int)
    | ProgressAt(pos: P)

  // ----- the reference: an episode read off the history of calls alone

  /** Call `m` ends the episode that call `j` began. */
  ghost predicate Breaks<P>(h: seq<Call<P>>, j: nat, m: nat)
    requires j < |h| && m < |h| && h[j].StuckAt?
  {
    match h[m]
    case StuckAt(q, _, _) => q != h[j].pos
    case ProgressAt(q) => !h[j].identified || q == h[j].pos
  }

  ghost predicate Unbroken<P>(h: seq<Call<P>>, j: nat, k: nat)
    requires k < |h|
  {
    j <= k && h[j].StuckAt? && forall m :: j < m <= k ==> !Breaks(h, j, m)
  }

  /** The episode open at call `k` began at call `j`. */
  ghost predicate Begins<P>(h: seq<Call<P>>, j: nat, k: nat)
    requires k < |h|
  {
    Unbroken(h, j, k) && forall i: nat :: i < j ==> !Unbroken(h, i, k)
  }

  ghost predicate Overdue<P>(h: seq<Call<P>>, j: nat, m: nat)
    requires j < |h| && m < |h| && h[j].StuckAt?
  {
    h[m].StuckAt? && h[m].now - h[j].now >= STUCK_ESCALATE_AFTER
  }

  /** Call `k` is the first of its episode made at least the threshold after its beginning. */
  ghost predicate Due<P>(h: seq<Call<P>>, k: nat)
    requires k < |h|
  {
    exists j: nat :: Begins(h, j, k) && Overdue(h, j, k) && forall m :: j < m < k ==> !Overdue(h, j, m)
  }

  /** Whether a position identifies its message depends on the position alone. */
  ghost predicate Consistent<P(!new)>(h: seq<Call<P>>, identifies: P -> bool) {
    forall m :: 0 <= m < |h| && h[m].StuckAt? ==> h[m].identified == identifies(h[m].pos)
  }

  // ----- the tracker

  datatype Episode<P> = Quiet | Open(pos: P, identified: bool, since: int, escalated: bool)

  class StuckTracker<P(==,!new)> {
    const zero: P              // the position type's zero value
    var position: P
    var active: bool
    var identified: bool
    var since: Option<int>     // None is the zero time
    var escalated: bool
    ghost const identifies: P -> bool
    ghost var calls: seq<Call<P>>

    ghost predicate Valid()
      reads this
    {
      && (active ==> since.Some?)
      && Consistent(calls, identifies)
      && Tracks(calls, Now())
    }

    ghost function Now(): Episode<P>
      reads this
    {
      if active && since.Some? then Open(position, identified, since.value, escalated) else Quiet
    }

    constructor (zero: P, ghost identifies: P -> bool)
      ensures Valid() && calls == [] && this.identifies == identifies
    {
      this.zero := zero;
      this.identifies := identifies;
      position, active, identified, since, escalated := zero, false, false, None, false;
      calls := [];
    }

    method Progress(pos: P)
      requires Valid()
      modifies this
      ensures Valid() && calls == old(calls) + [ProgressAt(pos)]
    {
      calls := calls + [ProgressAt(pos)];
      ProgressTracks(old(calls), old(Now()), pos);
      assert Consistent(calls, identifies);
      if !active {
        return;
      }
      if identified && pos != position {
        return;
      }
      position, active, identified, since, escalated := zero, false, false, None, false;
    }

    /** Escalates exactly when this call is due by the history of calls. */
    method Stuck(pos: P, identified: bool, now: int) returns (stuckFor: int, escalate: bool)
      requires Valid() && identified == identifies(pos)
      modifies this
      ensures Valid() && calls == old(calls) + [StuckAt(pos, identified, now)]
      ensures escalate <==> Due(calls, |calls| - 1)
      ensures escalate ==> stuckFor >= STUCK_ESCALATE_AFTER
    {
      calls := calls + [StuckAt(pos, identified, now)];
      StuckTracks(old(calls), old(Now()), pos, identified, now, identifies);
      assert Consistent(calls, identifies);
      if !active || pos != position {
        position, active, this.identified := pos, true, identified;
        since, escalated := Some(now), false;
        return 0, false;
      }
      if escalated || since.None? {
        return 0, false;
      }
      stuckFor := now - since.value;
      if stuckFor < STUCK_ESCALATE_AFTER {
        return 0, false;
      }
      escalated := true;
      return stuckFor, true;
    }
  }

  // ----- the tracker's five fields hold the open episode of the history

  ghost predicate Standing<P>(h: seq<Call<P>>, j: nat) {
    h != [] && Unbroken(h, j, |h| - 1)
  }

  ghost predicate Tracks<P>(h: seq<Call<P>>, e: Episode<P>) {
    match e
    case Quiet => forall j: nat :: !Standing(h, j)
    case Open(pos, identified, since, escalated) =>
      h != [] && exists j: nat :: OpenedAt(h, j, e)
  }

  ghost predicate OpenedAt<P>(h: seq<Call<P>>, j: nat, e: Episode<P>)
    requires h != [] && e.Open?
  {
    && Begins(h, j, |h| - 1)
    && h[j].pos == e.pos && h[j].identified == e.identified && h[j].now == e.since
    && (e.escalated <==> exists m :: j < m < |h| && Overdue(h, j, m))
  }

  lemma BreaksIsLocal<P>(h: seq<Call<P>>, c: Call<P>, j: nat)
    requires j < |h| && h[j].StuckAt?
    ensures forall m: nat :: m < |h| ==> Breaks(h + [c], j, m) == Breaks(h, j, m)
    ensures Unbroken(h + [c], j, |h|) <==> Unbroken(h, j, |h| - 1) && !Breaks(h + [c], j, |h|)
  {
    var g := h + [c];
    assert forall m: nat :: m < |h| ==> g[m] == h[m];
  }

  lemma StandingAfter<P>(h: seq<Call<P>>, c: Call<P>)
    ensures var g := h + [c];
            forall i: nat :: Standing(g, i) <==>
              (i == |h| && c.StuckAt?) || (i < |h| && Standing(h, i) && !Breaks(g, i, |h|))
  {
    forall i: nat | i < |h| && h[i].StuckAt?
      ensures Standing(h + [c], i) <==> Standing(h, i) && !Breaks(h + [c], i, |h|)
    {
      BreaksIsLocal(h, c, i);
    }
  }

  /** Every call an open episode has not been broken since stands at the episode's position. */
  lemma UnbrokenAgree<P(!new)>(h: seq<Call<P>>, j: nat, i: nat, k: nat, identifies: P -> bool)
    requires k < |h| && Consistent(h, identifies)
    requires Begins(h, j, k) && Unbroken(h, i, k)
    ensures i >= j && h[i].pos == h[j].pos && h[i].identified == h[j].identified
  {
    if i > j {
      assert !Breaks(h, j, i);
    }
  }

  lemma ProgressTracks<P(!new)>(h: seq<Call<P>>, e: Episode<P>, pos: P)
    requires Tracks(h, e)
    requires exists identifies: P -> bool :: Consistent(h, identifies)
    ensures var ended := e.Open? && (!e.identified || pos == e.pos);
            Tracks(h + [ProgressAt(pos)], if ended then Quiet else e)
  {
    var identifies: P -> bool :| Consistent(h, identifies);
    var g := h + [ProgressAt(pos)];
    StandingAfter(h, ProgressAt(pos));
    if e.Open? {
      var j: nat :| OpenedAt(h, j, e);
      forall i: nat | Standing(h, i)
        ensures i >= j && h[i].pos == e.pos && h[i].identified == e.identified
      {
        UnbrokenAgree(h, j, i, |h| - 1, identifies);
      }
      if e.identified && pos != e.pos {
        assert forall m: nat :: m < |h| ==> Overdue(g, j, m) == Overdue(h, j, m);
        assert !Overdue(g, j, |h|);
        assert Standing(h, j);
        assert Standing(g, j);
        forall i: nat | i < j
          ensures !Unbroken(g, i, |h|)
        {
          assert !Standing(h, i);
          assert !Standing(g, i);
        }
        assert OpenedAt(g, j, e);
      }
    }
  }

  lemma StuckTracks<P(!new)>(h: seq<Call<P>>, e: Episode<P>, pos: P, identified: bool, now: int, identifies: P -> bool)
    requires Tracks(h, e) && Consistent(h, identifies) && identified == identifies(pos)
    ensures var g := h + [StuckAt(pos, identified, now)];
            if e.Quiet? || pos != e.pos
            then Tracks(g, Open(pos, identified, now, false)) && !Due(g, |h|)
            else
              var due := !e.escalated && now - e.since >= STUCK_ESCALATE_AFTER;
              (Due(g, |h|) <==> due) && Tracks(g, e.(escalated := e.escalated || due))
  {
    var c := StuckAt(pos, identified, now);
    var g := h + [c];
    StandingAfter(h, c);
    if e.Quiet? {
      OpensHere(h, c);
    } else {
      var j: nat :| OpenedAt(h, j, e);
      forall i: nat | Standing(h, i)
        ensures i >= j && h[i].pos == e.pos
      {
        UnbrokenAgree(h, j, i, |h| - 1, identifies);
      }
      if pos != e.pos {
        OpensHere(h, c);
      } else {
        StaysOpen(h, c, j, e);
      }
    }
  }

  lemma OpensHere<P>(h: seq<Call<P>>, c: Call<P>)
    requires c.StuckAt?
    requires forall i: nat :: i < |h| ==> !Standing(h + [c], i)
    ensures Tracks(h + [c], Open(c.pos, c.identified, c.now, false)) && !Due(h + [c], |h|)
  {
    var g := h + [c];
    forall i: nat | i < |h|
      ensures !Unbroken(g, i, |h|)
    {
      assert !Standing(g, i);
    }
    assert Begins(g, |h|, |h|);
    assert OpenedAt(g, |h|, Open(c.pos, c.identified, c.now, false));
    forall j: nat | Begins(g, j, |h|)
      ensures j == |h|
    {
    }
  }

  lemma StaysOpen<P>(h: seq<Call<P>>, c: Call<P>, j: nat, e: Episode<P>)
    requires c.StuckAt? && h != [] && e.Open? && OpenedAt(h, j, e) && c.pos == e.pos
    ensures var g := h + [c];
            var due := !e.escalated && c.now - e.since >= STUCK_ESCALATE_AFTER;
            (Due(g, |h|) <==> due) && Tracks(g, e.(escalated := e.escalated || due))
  {
    var g := h + [c];
    BreaksIsLocal(h, c, j);
    forall i: nat | i < j
      ensures !Unbroken(g, i, |h|)
    {
      if h[i].StuckAt? {
        BreaksIsLocal(h, c, i);
      }
    }
    assert Begins(g, j, |h|);
    assert forall m: nat :: m < |h| ==> Overdue(g, j, m) == Overdue(h, j, m);
    assert Overdue(g, j, |h|) <==> c.now - e.since >= STUCK_ESCALATE_AFTER;
    var due := !e.escalated && c.now - e.since >= STUCK_ESCALATE_AFTER;
    forall i: nat | Begins(g, i, |h|)
      ensures i == j
    {
    }
    assert OpenedAt(g, j, e.(escalated := e.escalated || due));
  }

  // ----- what the reference says

  /** One episode escalates at most once. */
  lemma OncePerEpisode<P>(h: seq<Call<P>>, j: nat, k: nat, l: nat)
    requires k < l < |h| && Begins(h, j, k) && Begins(h, j, l)
    requires Due(h, k)
    ensures !Due(h, l)
  {
    forall i: nat | Begins(h, i, k) || Begins(h, i, l)
      ensures i == j
    {
    }
    assert Overdue(h, j, k);
  }

  /** A wedge that spans the threshold escalates, whatever else was redelivered meanwhile. */
  lemma LongWedgeEscalates<P(!new)>(h: seq<Call<P>>, identifies: P -> bool, j: nat, k: nat)
    requires k < |h| && Consistent(h, identifies) && Begins(h, j, k) && Overdue(h, j, k)
    ensures exists m: nat :: j < m <= k && Due(h, m)
    decreases k
  {
    if m: nat :| j < m < k && Overdue(h, j, m) {
      BeginsEarlier(h, identifies, j, m, k);
      LongWedgeEscalates(h, identifies, j, m);
    } else {
      assert Due(h, k);
    }
  }

  lemma BeginsEarlier<P(!new)>(h: seq<Call<P>>, identifies: P -> bool, j: nat, m: nat, k: nat)
    requires j < m < k < |h| && Consistent(h, identifies) && Begins(h, j, k) && h[m].StuckAt?
    ensures Begins(h, j, m)
  {
    forall i: nat | i < j && Unbroken(h, i, m)
      ensures Unbroken(h, i, k)
    {
      assert !Breaks(h, i, j);
      forall n | i < n <= k
        ensures !Breaks(h, i, n)
      {
        assert n <= m || !Breaks(h, j, n);
      }
    }
  }

  /** Progress at another position leaves an identified wedge's episode as it was. */
  lemma ForeignProgressPostponesNothing<P(!new)>(h: seq<Call<P>>, identifies: P -> bool, j: nat, k: nat, q: P)
    requires k < |h| && Consistent(h, identifies)
    requires Begins(h, j, k) && h[j].identified && q != h[j].pos
    requires k == |h| - 1
    ensures Begins(h + [ProgressAt(q)], j, |h|)
  {
    var g := h + [ProgressAt(q)];
    forall i: nat | i < |h| && h[i].StuckAt?
      ensures Unbroken(g, i, |h|) <==> Unbroken(h, i, k) && !Breaks(g, i, |h|)
    {
      BreaksIsLocal(h, ProgressAt(q), i);
    }
  }
}
