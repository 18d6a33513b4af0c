/**
  The sequenced-log outbox as one state machine: the four tables, every relay instance's place
  in its pass, and what was ever delivered. A label is one SQL statement, one whole sequencing
  transaction, one delivery event or one crash, and carries everything the environment decides.
  `Next` is total: a label that is not enabled changes nothing.
 */
module LogProtocol {
  import opened Prelude
  import opened Sequencing
  import opened Leases

  /** How one relay instance is configured. Its number is also its lock holder id. */
  datatype Setup = Setup(group: nat, lock: nat, fenced: bool, batching: bool)

  /** What never changes: the instances, and each row's immutable attributes. */
  datatype Site = Site(fleet: nat -> Setup, decodable: Row -> bool, created: Row -> int)

  datatype Db = Db(
    pending: set<Row>,          // committed, seq still NULL
    log: map<nat, Row>,         // labelled and not swept
    nextSeq: nat,
    offsets: map<nat, nat>,     // group -> last_seq
    locks: map<nat, Lease>)     // lock name -> lease

  /** A write an instance can give up waiting for: a watermark upsert, or the insert at the newest seq. */
  datatype Write = Watermark(top: nat) | Newest

  /** A group's start, the next seq at that moment, and the rows above the start it found. */
  datatype Registration = Registration(start: nat, next: nat, present: set<nat>)

  /** Where an instance is in its pass, with the locals it carries between statements. */
  datatype Local =
    | Idle
    | Unregistered                 // read the offset and found no row
    | Registering                  // issued the insert-if-absent, has not read it back
    | At(offset: nat)
    | Page(offset: nat, items: seq<nat>, decoded: nat, done: nat)
    | Dead

  datatype Sys = Sys(
    db: Db,
    locals: map<nat, Local>,
    // history
    labelled: map<nat, Row>,             // every label ever given
    registered: map<nat, Registration>,
    late: set<(nat, Write)>,             // given up on by their instance: each may still land, at any time
    confirmed: set<(nat, nat)>,          // (group, seq) acknowledged by the broker or confirmed parked
    touched: set<(nat, nat)>)            // (group, seq) that may have reached the broker, or was parked

  datatype Label =
    | Publish(row: Row)
    | SequencePass(limit: nat, late: set<Row>)   // late: rows committed after the pass read its page
    | Sweep(victims: set<nat>, cutoff: int, limit: nat)
    | Acquire(who: nat, now: int, deadline: int)
    | Release(who: nat)
    | ReadOffset(who: nat)
    | RegisterLatest(who: nat)
    | List(who: nat, limit: nat)
    | Reach(who: nat, item: nat)          // a send that may have arrived
    | Settle(who: nat, item: nat)         // a send acknowledged, or a park confirmed
    | Commit(who: nat, top: nat)          // the watermark upsert, answered
    | Abandon(who: nat, write: Write)     // a write sent and given up on
    | Land(who: nat, write: Write)        // ... and applied, however much later
    | Finish(who: nat)
    | Crash(who: nat)

  const INIT := Sys(Db({}, map[], 1, map[], map[]), map[], map[], map[], {}, {}, {})

  function LocalOf(s: Sys, i: nat): Local {
    if i in s.locals then s.locals[i] else Idle
  }

  function Slot(db: Db, lock: nat): Option<Lease> {
    if lock in db.locks then Some(db.locks[lock]) else None
  }

  function WithSlot(db: Db, lock: nat, slot: Option<Lease>): Db {
    db.(locks := if slot.Some? then db.locks[lock := slot.value] else db.locks - {lock})
  }

  /** The fence: the lock row still names this instance. No clock is read. */
  predicate FenceOpen(site: Site, db: Db, i: nat) {
    site.fleet(i).fenced ==> HeldBy(Slot(db, site.fleet(i).lock), i)
  }

  // ----- SELECT ... WHERE seq > ? ORDER BY seq LIMIT ?

  /** The first `limit` seqs of the log in [from, to), ascending. */
  function ListFrom(log: map<nat, Row>, from: nat, to: nat, limit: nat): seq<nat>
    decreases to - from
  {
    if from >= to || limit == 0 then []
    else if from in log then [from] + ListFrom(log, from + 1, to, limit - 1)
    else ListFrom(log, from + 1, to, limit)
  }

  /** How many of these rows decode before the first that does not. */
  function Readable(site: Site, log: map<nat, Row>, seqs: seq<nat>): (n: nat)
    requires forall s :: s in seqs ==> s in log
    ensures n <= |seqs|
  {
    if seqs == [] || !site.decodable(log[seqs[0]]) then 0
    else 1 + Readable(site, log, seqs[1..])
  }

  /** The decoded prefix of a page, and behind it the first undecodable row if there is one. */
  function PageItems(site: Site, log: map<nat, Row>, seqs: seq<nat>): seq<nat>
    requires forall s :: s in seqs ==> s in log
  {
    seqs[..Min(Readable(site, log, seqs) + 1, |seqs|)]
  }

  /** `q` is the log's content from `from` on, in order, cut off after at most `limit` rows. */
  ghost predicate IsListing(log: map<nat, Row>, from: nat, to: nat, limit: nat, q: seq<nat>) {
    && |q| <= limit
    && (forall k :: 0 <= k < |q| ==> q[k] in log && from <= q[k] < to)
    && (forall j, k :: 0 <= j < k < |q| ==> q[j] < q[k])
    && (forall s :: s in log && from <= s < to && (|q| < limit || (q != [] && s <= q[|q| - 1])) ==> s in q)
  }

  lemma ListingGrows(log: map<nat, Row>, from: nat, to: nat, limit: nat, t: seq<nat>)
    requires from < to && from in log && limit > 0
    requires IsListing(log, from + 1, to, limit - 1, t)
    ensures IsListing(log, from, to, limit, [from] + t)
  {
  }

  lemma {:induction false} ListFromIsTheLog(log: map<nat, Row>, from: nat, to: nat, limit: nat)
    ensures IsListing(log, from, to, limit, ListFrom(log, from, to, limit))
    decreases Max(to - from, 0)
  {
    if from < to && limit > 0 {
      if from in log {
        ListFromIsTheLog(log, from + 1, to, limit - 1);
        ListingGrows(log, from, to, limit, ListFrom(log, from + 1, to, limit - 1));
      } else {
        ListFromIsTheLog(log, from + 1, to, limit);
        assert ListFrom(log, from, to, limit) == ListFrom(log, from + 1, to, limit);
      }
    }
  }

  // ----- the watermark a page has earned

  /** The highest seq the page's progress allows to commit. */
  function Top(l: Local): nat
    requires l.Page? && l.done <= |l.items|
  {
    if l.done == 0 then l.offset else l.items[l.done - 1]
  }

  // ----- the rows a group is owed

  /** Before a group registers, these are the rows it would find. */
  predicate Owed(s: Sys, g: nat, n: nat) {
    && n < s.db.nextSeq
    && if g in s.registered then n in s.registered[g].present || s.registered[g].next <= n else n in s.db.log
  }

  // ----- steps

  function Register(s: Sys, g: nat, start: nat): Sys {
    if g in s.db.offsets then s
    else s.(db := s.db.(offsets := s.db.offsets[g := start]),
            registered := s.registered[g := Registration(start, s.db.nextSeq, set n | n in s.db.log && n > start)])
  }

  /** COALESCE(MAX(seq), 0) over the rows still in the log. */
  function MaxSeq(log: map<nat, Row>, below: nat): (m: nat)
    ensures forall n :: n in log && n < below ==> n <= m
    ensures m == 0 || (m in log && m < below)
  {
    if below == 0 then 0
    else if below - 1 in log then below - 1
    else MaxSeq(log, below - 1)
  }

  /** The upsert: GREATEST on the group's row, and a new row at `n` if it has none. */
  function Raise(s: Sys, g: nat, n: nat): Sys {
    if g in s.db.offsets
    then s.(db := s.db.(offsets := s.db.offsets[g := Max(s.db.offsets[g], n)]))
    else Register(s, g, n)
  }

  /** The upsert behind its fence. */
  function RaiseFenced(site: Site, s: Sys, i: nat, n: nat): Sys {
    if FenceOpen(site, s.db, i) then Raise(s, site.fleet(i).group, n) else s
  }

  /** What an instance writes from here: a registration at 0 or at the newest seq, or what its page has earned. */
  predicate MayWrite(l: Local, w: Write) {
    match w
    case Newest => l.Unregistered?
    case Watermark(n) => (l.Unregistered? && n == 0) || (l.Page? && 0 < l.done <= |l.items| && n == Top(l))
  }

  function Move(s: Sys, i: nat, l: Local): Sys {
    s.(locals := s.locals[i := l])
  }

  /** A fresh page behind `offset`. */
  function ListedPage(site: Site, db: Db, offset: nat, limit: nat): Local {
    var seqs := ListFrom(db.log, offset + 1, db.nextSeq, limit);
    ListFromIsTheLog(db.log, offset + 1, db.nextSeq, limit);
    Page(offset, PageItems(site, db.log, seqs), Readable(site, db.log, seqs), 0)
  }

  predicate Fresh(s: Sys, row: Row) {
    && (forall r :: r in s.db.pending ==> r.id != row.id)
    && (forall n :: n in s.labelled ==> s.labelled[n].id != row.id)
  }

  predicate Sweepable(site: Site, db: Db, victims: set<nat>, cutoff: int, limit: nat) {
    && victims <= db.log.Keys
    && |victims| <= limit
    && db.offsets != map[]
    && forall n :: n in victims ==>
         site.created(db.log[n]) < cutoff && forall g :: g in db.offsets ==> n <= db.offsets[g]
  }

  /** SET seq = next + rn - 1, row by row. */
  function Labels(rows: seq<Row>, next: nat): (m: map<nat, Row>)
    ensures forall n :: n in m <==> next <= n < next + |rows|
    ensures forall n :: n in m ==> m[n] == rows[n - next]
  {
    if rows == [] then map[]
    else Labels(rows[..|rows| - 1], next)[next + |rows| - 1 := rows[|rows| - 1]]
  }

  function Sequenced(s: Sys, limit: nat, late: set<Row>): Sys {
    var rows := Taken(s.db.pending - late, limit);
    var next := s.db.nextSeq;
    var labels := Labels(rows, next);
    s.(db := s.db.(pending := s.db.pending - RowsOf(rows),
                   log := s.db.log + labels,
                   nextSeq := next + |rows|),
       labelled := s.labelled + labels)
  }

  function Landed(site: Site, s: Sys, i: nat, w: Write): Sys {
    match w
    case Watermark(n) => RaiseFenced(site, s, i, n)
    case Newest => Register(s, site.fleet(i).group, MaxSeq(s.db.log, s.db.nextSeq))
  }

  function Next(site: Site, s: Sys, l: Label): Sys {
    match l
    case Publish(row) =>
      if Fresh(s, row) then s.(db := s.db.(pending := s.db.pending + {row})) else s
    case SequencePass(limit, late) => Sequenced(s, limit, late)
    case Sweep(victims, cutoff, limit) =>
      if Sweepable(site, s.db, victims, cutoff, limit)
      then s.(db := s.db.(log := s.db.log - victims)) else s
    case Acquire(i, now, deadline) =>
      var lock := site.fleet(i).lock;
      s.(db := WithSlot(s.db, lock, Elect(Slot(s.db, lock), i, now, deadline)))
    case Release(i) =>
      var lock := site.fleet(i).lock;
      s.(db := WithSlot(s.db, lock, Dropped(Slot(s.db, lock), i)))
    case ReadOffset(i) =>
      var g := site.fleet(i).group;
      if LocalOf(s, i).Idle? || LocalOf(s, i).Registering?
      then Move(s, i, if g in s.db.offsets then At(s.db.offsets[g]) else Unregistered) else s
    case RegisterLatest(i) =>
      if LocalOf(s, i).Unregistered?
      then Move(Register(s, site.fleet(i).group, MaxSeq(s.db.log, s.db.nextSeq)), i, Registering) else s
    case List(i, limit) =>
      var at := LocalOf(s, i);
      if at.At? then Move(s, i, ListedPage(site, s.db, at.offset, limit)) else s
    case Reach(i, n) =>
      var p := LocalOf(s, i);
      if p.Page? && p.done < p.decoded <= |p.items| && n in p.items[p.done..p.decoded]
         && (n == p.items[p.done] || site.fleet(i).batching)
      then s.(touched := s.touched + {(site.fleet(i).group, n)}) else s
    case Settle(i, n) =>
      var p := LocalOf(s, i);
      if p.Page? && p.done < |p.items| && n == p.items[p.done]
      then Move(s.(confirmed := s.confirmed + {(site.fleet(i).group, n)},
                   touched := s.touched + {(site.fleet(i).group, n)}), i, p.(done := p.done + 1))
      else s
    case Commit(i, n) =>
      if MayWrite(LocalOf(s, i), Watermark(n)) then Move(RaiseFenced(site, s, i, n), i, At(n)) else s
    case Abandon(i, w) => if MayWrite(LocalOf(s, i), w) then s.(late := s.late + {(i, w)}) else s
    case Land(i, w) => if (i, w) in s.late then Landed(site, s, i, w) else s
    case Finish(i) => if LocalOf(s, i).Dead? then s else Move(s, i, Idle)
    case Crash(i) => Move(s, i, Dead)
  }

  /** The state after a run. */
  function Exec(site: Site, run: seq<Label>): Sys {
    if run == [] then INIT
    else Next(site, Exec(site, run[..|run| - 1]), run[|run| - 1])
  }

  /** The instance a label belongs to; publishes, sequencer passes and sweeps belong to none. */
  function Actor(l: Label): Option<nat> {
    match l
    case Publish(_) => None
    case SequencePass(_, _) => None
    case Sweep(_, _, _) => None
    case _ => Some(l.who)
  }
}
