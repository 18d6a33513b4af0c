/** Leader leases: one abstract step, the two stores' statements that take it, and exclusion. */
module Leases {
  import opened Prelude

  datatype Lease = Lease(holder: nat, expire: int)

  /** The election: a free, expired or own lease is taken until `deadline`; any other stays. */
  function Elect(slot: Option<Lease>, holder: nat, now: int, deadline: int): Option<Lease> {
    if slot.None? || slot.value.expire < now || slot.value.holder == holder
    then Some(Lease(holder, deadline))
    else slot
  }

  predicate HeldBy(slot: Option<Lease>, holder: nat) {
    slot.Some? && slot.value.holder == holder
  }

  function Dropped(slot: Option<Lease>, holder: nat): Option<Lease> {
    if HeldBy(slot, holder) then None else slot
  }

  // ----- TiDB: one upsert whose two assignments run left to right

  const LOCK_UNREPORTED := 0
  const LOCK_TAKEN := 1
  const LOCK_LOST := 2

  /**
    INSERT ... ON DUPLICATE KEY UPDATE. The second assignment sees the holder the first one
    wrote and the deadline nothing has written yet. The outcome code reaches the client only
    when the row existed and the connection carries LAST_INSERT_ID(expr) (`carried`).
   */
  function Upsert(slot: Option<Lease>, holder: nat, deadline: int, now: int, carried: bool)
    : (Option<Lease>, int)
  {
    match slot
    case None => (Some(Lease(holder, deadline)), LOCK_UNREPORTED)
    case Some(was) =>
      var holder' := if was.expire < now || was.holder == holder then holder else was.holder;
      var code := if was.expire < now || holder' == holder then LOCK_TAKEN else LOCK_LOST;
      var expire' := if code == LOCK_TAKEN then deadline else was.expire;
      (Some(Lease(holder', expire')), if carried then code else LOCK_UNREPORTED)
  }

  /** The upsert is the election, and a reported code tells who holds the lock after it. */
  lemma UpsertIsElect(slot: Option<Lease>, holder: nat, deadline: int, now: int, carried: bool)
    ensures var (slot', code) := Upsert(slot, holder, deadline, now, carried);
            && slot' == Elect(slot, holder, now, deadline)
            && (code == LOCK_TAKEN ==> HeldBy(slot', holder))
            && (code == LOCK_LOST ==> !HeldBy(slot', holder))
            && (code != LOCK_UNREPORTED <==> carried && slot.Some?)
  {
  }

  // ----- MongoDB: one conditional pipeline upsert on the server's clock

  /** A lock document; a field can be missing. */
  datatype LockDoc = LockDoc(holder: Option<nat>, expire: Option<int>)

  const EPOCH := 0

  /** Both fields are computed from the document as it was before the stage. */
  function Pipeline(doc: Option<LockDoc>, holder: nat, now: int, ttlMillis: int): LockDoc {
    var was := if doc.Some? then doc.value else LockDoc(None, None);
    var expire := if was.expire.Some? then was.expire.value else EPOCH;
    var canTake := was.holder == Some(holder) || expire < now;
    LockDoc(if canTake then Some(holder) else was.holder,
            if canTake then Some(now + Max(ttlMillis, 1)) else was.expire)
  }

  /** The lease a complete document stands for; a missing document is a free lock. */
  function LeaseOf(doc: Option<LockDoc>): Option<Lease>
    requires doc.Some? ==> doc.value.holder.Some? && doc.value.expire.Some?
  {
    if doc.None? then None else Some(Lease(doc.value.holder.value, doc.value.expire.value))
  }

  predicate Whole(doc: Option<LockDoc>) {
    doc.Some? ==> doc.value.holder.Some? && doc.value.expire.Some?
  }

  /**
    The pipeline is the election exactly when a lock document exists or the server's clock is
    past the epoch: a fresh upsert stands in for a lease that expired at the epoch.
   */
  lemma PipelineIsElect(doc: Option<LockDoc>, holder: nat, now: int, ttlMillis: int)
    requires Whole(doc)
    ensures var doc' := Pipeline(doc, holder, now, ttlMillis);
            (Whole(Some(doc')) && LeaseOf(Some(doc')) == Elect(LeaseOf(doc), holder, now, now + Max(ttlMillis, 1)))
            <==> (doc.Some? || now > EPOCH)
    ensures now > EPOCH ==>
              (Pipeline(doc, holder, now, ttlMillis).holder == Some(holder)
               <==> HeldBy(Elect(LeaseOf(doc), holder, now, now + Max(ttlMillis, 1)), holder))
  {
  }

  // ----- exclusion over whole runs, on one clock that never goes back

  /** What each instance believes: until when it last learned that it holds the lease. */
  datatype Electorate = Electorate(
    slot: Option<Lease>,
    clock: int,
    belief: map<nat, int>,
    last: map<nat, int>)     // each holder's latest reading to reach the table

  const VACANT := Electorate(None, 0, map[], map[])

  /**
    What reaches the clock, a holder or the lock table. A bid carries the reading its holder took
    before sending it, and `heard` says that the answer came back. A release is two events: the
    holder gives up its flag, and later its delete reaches the table.
   */
  datatype Ballot =
    | Bid(holder: nat, now: int, heard: bool)
    | StandDown(holder: nat)
    | Delete(holder: nat)
    | Wait(now: int)

  function Vote(ttl: nat -> nat, e: Electorate, b: Ballot): Electorate {
    match b
    case Bid(h, now, heard) =>
      if e.clock < now then e
      else
        var slot' := Elect(e.slot, h, now, now + ttl(h));
        Electorate(slot', e.clock,
                   if !heard then e.belief
                   else if HeldBy(slot', h) then e.belief[h := now + ttl(h)]
                   else e.belief - {h},
                   e.last[h := now])
    case StandDown(h) => e.(belief := e.belief - {h})
    case Delete(h) => e.(slot := Dropped(e.slot, h))
    case Wait(now) => if now < e.clock then e else e.(clock := now)
  }

  function Poll(ttl: nat -> nat, e: Electorate, ballots: seq<Ballot>): Electorate {
    if ballots == [] then e
    else Vote(ttl, Poll(ttl, e, ballots[..|ballots| - 1]), ballots[|ballots| - 1])
  }

  /** `h` is inside a lease it has not given up and that has not run out. */
  predicate Leads(e: Electorate, h: nat) {
    h in e.belief && e.clock <= e.belief[h]
  }

  ghost predicate TwoLead(e: Electorate) {
    exists h1, h2 :: h1 != h2 && Leads(e, h1) && Leads(e, h2)
  }

  /**
    A statement its holder has stopped waiting for takes from under it what it still counts on:
    a bid with an earlier deadline, or a delete.
   */
  predicate Undercuts(ttl: nat -> nat, e: Electorate, b: Ballot) {
    match b
    case Bid(h, now, heard) => !heard && now <= e.clock && Leads(e, h) && now + ttl(h) < e.belief[h]
    case Delete(h) => Leads(e, h)
    case _ => false
  }

  ghost predicate NeverUndercut(ttl: nat -> nat, e: Electorate, ballots: seq<Ballot>) {
    ballots == []
    || (NeverUndercut(ttl, e, ballots[..|ballots| - 1])
        && !Undercuts(ttl, Poll(ttl, e, ballots[..|ballots| - 1]), ballots[|ballots| - 1]))
  }

  /** Who leads holds the lock for at least as long as it counts on. */
  ghost predicate Backed(e: Electorate) {
    forall h :: Leads(e, h) ==> HeldBy(e.slot, h) && e.belief[h] <= e.slot.value.expire
  }

  lemma {:induction false} BeliefStaysBacked(ttl: nat -> nat, e: Electorate, ballots: seq<Ballot>)
    requires Backed(e) && NeverUndercut(ttl, e, ballots)
    ensures Backed(Poll(ttl, e, ballots))
  {
    hide Backed, Vote, Undercuts;
    if ballots != [] {
      BeliefStaysBacked(ttl, e, ballots[..|ballots| - 1]);
      StepStaysBacked(ttl, Poll(ttl, e, ballots[..|ballots| - 1]), ballots[|ballots| - 1]);
    }
  }

  /**
    At no point of any run do two holders lead together, whatever answers get lost and however
    late the statements of different holders reach the table, unless one undercuts its holder.
   */
  lemma AtMostOneLeads(ttl: nat -> nat, ballots: seq<Ballot>, h1: nat, h2: nat)
    requires NeverUndercut(ttl, VACANT, ballots)
    requires Leads(Poll(ttl, VACANT, ballots), h1) && Leads(Poll(ttl, VACANT, ballots), h2)
    ensures h1 == h2
  {
    BeliefStaysBacked(ttl, VACANT, ballots);
  }

  /** From `e` on, these ballots undercut nobody, and two holders lead at their end. */
  ghost predicate ComesToTwo(ttl: nat -> nat, e: Electorate, more: seq<Ballot>) {
    NeverUndercut(ttl, e, more) && TwoLead(Poll(ttl, e, more))
  }

  /** The condition is exact: past one undercut, and only then, a further run makes two lead. */
  lemma TwoLeadExactlyPastAnUndercut(ttl: nat -> nat, ballots: seq<Ballot>, b: Ballot)
    requires NeverUndercut(ttl, VACANT, ballots)
    ensures var e := Poll(ttl, VACANT, ballots);
            Undercuts(ttl, e, b) <==> exists more :: ComesToTwo(ttl, Vote(ttl, e, b), more)
  {
    hide Undercuts, Vote, Backed, Poll, NeverUndercut, TwoLead;
    var e := Poll(ttl, VACANT, ballots);
    NobodyLeadsVacant();
    BeliefStaysBacked(ttl, VACANT, ballots);
    if Undercuts(ttl, e, b) {
      UndercutOpensTheLock(ttl, e, b);
      AnotherWins(ttl, Vote(ttl, e, b), b.holder, b.holder + 1);
    } else {
      StepStaysBacked(ttl, e, b);
      forall more | NeverUndercut(ttl, Vote(ttl, e, b), more)
        ensures !ComesToTwo(ttl, Vote(ttl, e, b), more)
      {
        BeliefStaysBacked(ttl, Vote(ttl, e, b), more);
        BackedByOneLock(Poll(ttl, Vote(ttl, e, b), more));
      }
    }
  }

  lemma NobodyLeadsVacant()
    ensures Backed(VACANT)
  {
  }

  lemma BackedByOneLock(e: Electorate)
    requires Backed(e)
    ensures !TwoLead(e)
  {
  }

  lemma StepStaysBacked(ttl: nat -> nat, e: Electorate, b: Ballot)
    requires Backed(e) && !Undercuts(ttl, e, b)
    ensures Backed(Vote(ttl, e, b))
  {
  }

  lemma UndercutOpensTheLock(ttl: nat -> nat, e: Electorate, b: Ballot)
    requires Backed(e) && Undercuts(ttl, e, b)
    ensures (b.Bid? || b.Delete?) && Leads(Vote(ttl, e, b), b.holder)
    ensures Opens(Vote(ttl, e, b), b.holder)
  {
  }

  /** The table gives the lock away before `h` stops counting on it. */
  predicate Opens(e: Electorate, h: nat) {
    Leads(e, h) && (e.slot.None? || e.slot.value.expire < e.belief[h])
  }

  /** Then the next bidder leads beside it. */
  lemma AnotherWins(ttl: nat -> nat, e: Electorate, h1: nat, h2: nat)
    requires h1 != h2 && Opens(e, h1)
    ensures ComesToTwo(ttl, e, [Wait(e.belief[h1]), Bid(h2, e.belief[h1], true)])
  {
    var end := e.belief[h1];
    var one, two := [Wait(end)], [Wait(end), Bid(h2, end, true)];
    var at, after := Vote(ttl, e, one[0]), Vote(ttl, Vote(ttl, e, one[0]), two[1]);
    assert one[..0] == [] && two[..1] == one;
    assert Poll(ttl, e, []) == e && NeverUndercut(ttl, e, []);
    assert Poll(ttl, e, one) == at && NeverUndercut(ttl, e, one);
    assert Poll(ttl, e, two) == after && NeverUndercut(ttl, e, two);
    assert Leads(after, h1) && Leads(after, h2);
  }

  // ----- statements in the order they were issued

  /** No bid arrives behind a later reading of its holder, and no delete behind a newer lease. */
  predicate InTurn(e: Electorate, b: Ballot) {
    match b
    case Bid(h, now, _) => h in e.last ==> e.last[h] <= now
    case Delete(h) => h !in e.belief
    case _ => true
  }

  ghost predicate Orderly(ttl: nat -> nat, ballots: seq<Ballot>) {
    ballots == []
    || (Orderly(ttl, ballots[..|ballots| - 1])
        && InTurn(Poll(ttl, VACANT, ballots[..|ballots| - 1]), ballots[|ballots| - 1]))
  }

  /** Where each holder's own statements apply in order, none undercuts it. */
  lemma {:induction false} OrderlyIsNeverUndercut(ttl: nat -> nat, ballots: seq<Ballot>)
    requires Orderly(ttl, ballots)
    ensures NeverUndercut(ttl, VACANT, ballots)
    ensures var e := Poll(ttl, VACANT, ballots);
            forall h :: h in e.belief ==> h in e.last && e.belief[h] <= e.last[h] + ttl(h)
  {
    if ballots != [] {
      OrderlyIsNeverUndercut(ttl, ballots[..|ballots| - 1]);
    }
  }

  /** A bid given up on that reaches the table behind the holder's next one does undercut it. */
  lemma LateBidUndercuts(ttl: nat -> nat, h: nat)
    requires ttl(h) > 0
    ensures var e := Poll(ttl, VACANT, [Wait(ttl(h)), Bid(h, ttl(h), true)]);
            Undercuts(ttl, e, Bid(h, 0, false)) && !InTurn(e, Bid(h, 0, false))
  {
    var ballots := [Wait(ttl(h)), Bid(h, ttl(h), true)];
    assert ballots[..1][..0] == [] && ballots[..1][0] == ballots[0];
    var at := Vote(ttl, VACANT, ballots[0]);
    assert Poll(ttl, VACANT, ballots[..1]) == at;
    assert Poll(ttl, VACANT, ballots) == Vote(ttl, at, ballots[1]);
  }
}
