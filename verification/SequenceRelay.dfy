/**
  The sequence runtime's pass over the log. Method bodies hide the definitions they need only by
  name, which keeps each proof small.
 */
module SequenceRelays {
  import opened Prelude
  import opened Leases
  import opened LogProtocol
  import opened LogSafety
  import opened LogTheorems
  import opened StuckLanes
  import opened Lanes
  import opened Journals
  import opened Clusters
  import opened TidbStores
  import opened Leaders

  const MAX_PAGES_PER_TICK := 64

  /** What a returned error wraps; no fault at all is nil. */
  datatype Fault = LostLeadership | LeaseRenewFailed | StoreFault | Undecodable | ParkFault | RunCanceled

  datatype PageOutcome = PageDone | PageFull | PageStopped | PageCanceled

  // ----- what a page comes to when every message meets a fixed fate

  /** (maxSeq, sent, outcome) of delivering `msgs` one by one after `offset`, at call `k`'s verdicts. */
  function PageResult(hooks: Hooks, verdict: (nat, nat) -> Verdict, parks: (nat, nat) -> bool, k: nat,
                      msgs: seq<nat>, offset: nat): (r: (nat, nat, PageOutcome))
    ensures r.1 <= |msgs|
  {
    if msgs == [] then (offset, 0, PageDone)
    else
      var d := Judge(hooks, verdict(k, msgs[0]), false, parks(k, msgs[0]));
      if d == Sent then
        var r := PageResult(hooks, verdict, parks, k, msgs[1..], msgs[0]);
        (r.0, r.1 + 1, r.2)
      else if d == Parked then PageResult(hooks, verdict, parks, k, msgs[1..], msgs[0])
      else (offset, 0, PageStopped)
  }

  /** The last message of a page, or what lies before it. */
  function LastDecoded(listing: Listing, offset: nat): nat {
    if listing.msgs == [] then offset else listing.msgs[|listing.msgs| - 1]
  }

  /** The last row of a page, poison row included. */
  function LastListed(listing: Listing, offset: nat): nat {
    if listing.poison.Some? then listing.poison.value else LastDecoded(listing, offset)
  }

  /** How a page ends whose messages came to `outcome`. */
  function Ending(listing: Listing, outcome: PageOutcome, parked: bool, failed: bool, batch: nat)
    : (PageOutcome, set<Fault>)
  {
    if outcome != PageDone then (outcome, {})
    else if listing.poison.Some? && !parked then
      (PageDone, if failed then {Undecodable, ParkFault} else {Undecodable})
    else (if |listing.msgs| == batch || parked then PageFull else PageDone, {})
  }

  /** (next, outcome, err) of a page and the poison row behind it, when the commit goes well. */
  function WholePage(hooks: Hooks, verdict: (nat, nat) -> Verdict, parks: (nat, nat) -> bool, k: nat,
                     listing: Listing, offset: nat, batch: nat): (nat, PageOutcome, set<Fault>)
  {
    var r := PageResult(hooks, verdict, parks, k, listing.msgs, offset);
    var tried := r.2 == PageDone && listing.poison.Some? && hooks.poison;
    var parked := tried && parks(k, listing.poison.value);
    var end := Ending(listing, r.2, parked, tried && !parked, batch);
    (if parked then listing.poison.value else r.0, end.0, end.1)
  }

  /** After `i` messages, at (maxSeq, sent), the whole page still comes to `whole`. */
  ghost predicate Heads(hooks: Hooks, down: Downstream<nat>, k: nat, msgs: seq<nat>, i: nat, maxSeq: nat, sent: nat,
                        whole: (nat, nat, PageOutcome))
    requires i <= |msgs|
  {
    var r := PageResult(hooks, down.verdict, down.parks, k, msgs[i..], maxSeq);
    whole == (r.0, sent + r.1, r.2)
  }

  lemma HeadsOut(hooks: Hooks, down: Downstream<nat>, k: nat, msgs: seq<nat>, offset: nat)
    ensures Heads(hooks, down, k, msgs, 0, offset, 0, PageResult(hooks, down.verdict, down.parks, k, msgs, offset))
  {
    assert msgs[0..] == msgs;
  }

  /** One message's disposition moves the tally as the page does. */
  lemma HeadsOn(hooks: Hooks, down: Downstream<nat>, k0: nat, k: nat, msgs: seq<nat>, i: nat, maxSeq: nat, sent: nat,
                whole: (nat, nat, PageOutcome), d: Disposition)
    requires i < |msgs| && Heads(hooks, down, k0, msgs, i, maxSeq, sent, whole)
    requires FromThen(down, k0) && k0 <= k
    requires d == Judge(hooks, down.verdict(k, msgs[i]), false, down.parks(k + 1, msgs[i]))
    ensures match d
            case Sent => Heads(hooks, down, k0, msgs, i + 1, msgs[i], sent + 1, whole)
            case Parked => Heads(hooks, down, k0, msgs, i + 1, msgs[i], sent, whole)
            case _ => d == Stopped && whole == (maxSeq, sent, PageStopped)
  {
    assert msgs[i..][1..] == msgs[i + 1..];
  }

  lemma HeadsHome(hooks: Hooks, down: Downstream<nat>, k: nat, msgs: seq<nat>, maxSeq: nat, sent: nat,
                  whole: (nat, nat, PageOutcome))
    requires Heads(hooks, down, k, msgs, |msgs|, maxSeq, sent, whole)
    ensures whole == (maxSeq, sent, PageDone)
  {
  }

  /** From call `k` on every message meets one fate. */
  ghost predicate FromThen(down: Downstream<nat>, k: nat) {
    && (forall l: nat, p: nat :: l >= k ==> down.verdict(l, p) == down.verdict(k, p))
    && (forall l: nat, p: nat :: l >= k ==> down.parks(l, p) == down.parks(k, p))
  }

  /** From call `k` on nothing is reported on top of a complete batch. */
  ghost predicate Strict(down: Downstream<nat>, k: nat) {
    forall l: nat :: l >= k ==> down.overrules(l).None?
  }

  /** What a batch of `rest` at call `k` comes to: the accepted prefix, and the next message's fate. */
  ghost predicate ByBatch(hooks: Hooks, down: Downstream<nat>, k: nat, rest: seq<nat>, sent: nat, d: Disposition,
                          dead: bool)
  {
    && sent == AckedPrefix(down.verdict, k, rest)
    && if sent == |rest| then d == (if down.overrules(k).Some? then Stopped else Sent)
       else d == Judge(hooks, down.verdict(k, rest[sent]), dead, down.parks(k + 1, rest[sent]))
  }

  /** One batch moves the tally as its messages would one by one. */
  lemma HeadsOnByBatch(hooks: Hooks, down: Downstream<nat>, k0: nat, k: nat, msgs: seq<nat>, i: nat, maxSeq: nat,
                       sent: nat, whole: (nat, nat, PageOutcome), n: nat, next: nat, top: nat, d: Disposition)
    requires i < |msgs| && Heads(hooks, down, k0, msgs, i, maxSeq, sent, whole)
    requires FromThen(down, k0) && Strict(down, k0) && k0 <= k
    requires ByBatch(hooks, down, k, msgs[i..], n, d, false)
    requires next == i + n + (if d == Parked then 1 else 0) && next <= |msgs|
    requires top == if next == i then maxSeq else msgs[next - 1]
    ensures d == Sent || d == Parked ==> Heads(hooks, down, k0, msgs, next, top, sent + n, whole)
    ensures d == Stopped ==> whole == (top, sent + n, PageStopped)
    ensures d != Canceled
  {
    var rest := msgs[i..];
    AcceptedPrefix(hooks, down.verdict, down.parks, k0, rest, n, maxSeq);
    assert rest[n..] == msgs[i + n..];
    if i + n < |msgs| {
      assert rest[n] == msgs[i + n] && msgs[i + n..][1..] == msgs[i + n + 1..];
    }
  }

  /** An unbroken run of accepted messages contributes itself and leaves the rest of the page. */
  lemma {:induction false} AcceptedPrefix(hooks: Hooks, verdict: (nat, nat) -> Verdict, parks: (nat, nat) -> bool,
                                          k: nat, msgs: seq<nat>, n: nat, offset: nat)
    requires n <= |msgs| && forall j :: 0 <= j < n ==> verdict(k, msgs[j]) == Accepts
    ensures var r := PageResult(hooks, verdict, parks, k, msgs[n..], if n == 0 then offset else msgs[n - 1]);
            PageResult(hooks, verdict, parks, k, msgs, offset) == (r.0, r.1 + n, r.2)
  {
    if n > 0 {
      AcceptedPrefix(hooks, verdict, parks, k, msgs[1..], n - 1, msgs[0]);
      assert msgs[1..][n - 1..] == msgs[n..];
    } else {
      assert msgs[0..] == msgs;
    }
  }

  // ----- batch events fit the protocol

  lemma {:induction false} WaveFits(l: Local, wave: seq<Event<nat>>, rest: seq<Event<nat>>)
    requires l.Page? && l.done < l.decoded <= |l.items|
    requires forall k :: 0 <= k < |wave| ==> wave[k].Reached? && wave[k].pos in l.items[l.done..l.decoded]
    requires Fits(l, true, rest)
    ensures Fits(l, true, wave + rest) && Absorb(l, wave + rest) == Absorb(l, rest)
    decreases |wave|
  {
    if wave == [] {
      assert wave + rest == rest;
    } else {
      WaveFits(l, wave[1..], rest);
      assert (wave + rest)[1..] == wave[1..] + rest;
    }
  }

  lemma AcksPeel(ps: seq<nat>, rest: seq<Event<nat>>)
    requires ps != []
    ensures (Acks(ps) + rest)[0] == Acked(ps[0]) && (Acks(ps) + rest)[1..] == Acks(ps[1..]) + rest
  {
    assert Acks(ps) == [Acked(ps[0])] + Acks(ps[1..]);
  }

  lemma {:induction false} AcksFit(l: Local, n: nat, rest: seq<Event<nat>>)
    requires l.Page? && l.done + n <= l.decoded <= |l.items|
    requires Fits(l.(done := l.done + n), true, rest)
    ensures var events := Acks(l.items[l.done..l.done + n]) + rest;
            && Fits(l, true, events)
            && Absorb(l, events) == Absorb(l.(done := l.done + n), rest)
    decreases n
  {
    hide Acks;
    var ps := l.items[l.done..l.done + n];
    if n == 0 {
      assert Acks(ps) + rest == rest;
    } else {
      var next := l.(done := l.done + 1);
      AcksPeel(ps, rest);
      SlicesOfASlice(l.items, l.done, l.done + n, 1);
      AcksFit(next, n - 1, rest);
    }
  }

  /** Everything one batch leaves downstream is a run of protocol steps of this page. */
  lemma BatchFits(l: Local, hooks: Hooks, ps: seq<nat>, wave: seq<Event<nat>>, sent: nat, d: Disposition)
    requires l.Page? && l.done < l.decoded <= |l.items| && ps == l.items[l.done..l.decoded]
    requires forall k :: 0 <= k < |wave| ==> wave[k].Reached? && wave[k].pos in ps
    requires sent <= |ps| && hooks.Validated()
    requires sent < |ps| && d == Parked ==> hooks.poison
    ensures var tail := if sent < |ps| then Parking(hooks, d, ps[sent]) else [];
            && Fits(l, true, wave + Acks(ps[..sent]) + tail)
            && Absorb(l, wave + Acks(ps[..sent]) + tail)
               == l.(done := l.done + sent + if sent < |ps| && d == Parked then 1 else 0)
  {
    hide Fits, Absorb, Acks, Parking;
    var tail := if sent < |ps| then Parking(hooks, d, ps[sent]) else [];
    var events := Acks(ps[..sent]) + tail;
    AcksAndTailFit(l, hooks, ps, sent, d);
    WaveFits(l, wave, events);
    Regroup(wave, Acks(ps[..sent]), tail);
  }

  lemma AcksAndTailFit(l: Local, hooks: Hooks, ps: seq<nat>, sent: nat, d: Disposition)
    requires l.Page? && l.done < l.decoded <= |l.items| && ps == l.items[l.done..l.decoded]
    requires sent <= |ps| && (sent < |ps| && d == Parked ==> hooks.poison)
    ensures var events := Acks(ps[..sent]) + if sent < |ps| then Parking(hooks, d, ps[sent]) else [];
            && Fits(l, true, events)
            && Absorb(l, events) == l.(done := l.done + sent + if sent < |ps| && d == Parked then 1 else 0)
  {
    hide Fits, Absorb, Acks, Parking;
    SlicesOfASlice(l.items, l.done, l.decoded, sent);
    var tail := if sent < |ps| then Parking(hooks, d, ps[sent]) else [];
    TailFits(l.(done := l.done + sent), true, hooks, ps[sent..], d);
    AcksFit(l, sent, tail);
  }

  lemma SlicesOfASlice<T>(q: seq<T>, from: nat, to: nat, k: nat)
    requires from + k <= to <= |q|
    ensures q[from..to][..k] == q[from..from + k] && q[from..to][k..] == q[from + k..to]
  {
  }

  lemma Regroup<T>(a: seq<T>, b: seq<T>, c: seq<T>)
    ensures a + b + c == a + (b + c)
  {
  }

  /** The message behind the delivered prefix is parked, or nothing more happens. */
  lemma TailFits(at: Local, batching: bool, hooks: Hooks, rest: seq<nat>, d: Disposition)
    requires at.Page? && at.done <= at.decoded <= |at.items| && rest == at.items[at.done..at.decoded]
    requires rest != [] && d == Parked ==> hooks.poison
    ensures var tail := if rest != [] then Parking(hooks, d, rest[0]) else [];
            && Fits(at, batching, tail)
            && Absorb(at, tail) == at.(done := at.done + if rest != [] && d == Parked then 1 else 0)
  {
    var tail := if rest != [] then Parking(hooks, d, rest[0]) else [];
    if tail != [] {
      assert tail[1..] == [];
    }
  }

  // ----- the relay

  class Relay {
    const store: RelayStore
    const elector: Elector
    const lane: Lane<nat>
    const batchSize: nat
    const sequenceBatchSize: nat
    const sweepBatch: nat
    const sweepInterval: int
    const sequences: bool            // the sequencer capability is on
    const sweeps: bool               // the retention capability is on
    const startFromBeginning: bool
    var lastSweep: Option<int>

    /** The protocol's deliveries by this instance are the downstream's own record. */
    ghost predicate Valid()
      reads this, store, store.cluster, lane, lane.tracker, lane.downstream
    {
      && store.cluster.Valid()
      && store.cluster.delivered == lane.downstream.log
      && lane.Valid()
      && elector.store == store
      && lane.downstream.journal == store.journal
      && lane.hooks.Validated()
      && lane.batching == store.cluster.site.fleet(store.cluster.me).batching
      && (lane.batching ==> lane.downstream.abiding)
      && batchSize > 0 && sequenceBatchSize > 0 && sweepBatch > 0
    }

    constructor (store: RelayStore, elector: Elector, lane: Lane<nat>, batchSize: nat, sequenceBatchSize: nat,
                 sweepBatch: nat, sweepInterval: int, sequences: bool, sweeps: bool, startFromBeginning: bool)
      requires store.cluster.Valid() && lane.Valid() && elector.store == store
      requires store.cluster.delivered == lane.downstream.log
      requires lane.downstream.journal == store.journal && lane.hooks.Validated()
      requires lane.batching == store.cluster.site.fleet(store.cluster.me).batching
      requires lane.batching ==> lane.downstream.abiding
      requires batchSize > 0 && sequenceBatchSize > 0 && sweepBatch > 0
      ensures Valid() && this.store == store && this.elector == elector && this.lane == lane && lastSweep == None
    {
      this.store, this.elector, this.lane := store, elector, lane;
      this.batchSize, this.sequenceBatchSize, this.sweepBatch := batchSize, sequenceBatchSize, sweepBatch;
      this.sweepInterval, this.sequences, this.sweeps := sweepInterval, sequences, sweeps;
      this.startFromBeginning := startFromBeginning;
      lastSweep := None;
    }

    function Here(): Local
      reads store.cluster
    {
      store.cluster.Here()
    }

    function Fenced(): bool { store.cluster.site.fleet(store.cluster.me).fenced }

    // ----- the lease and the watermark

    /**
      The group's watermark is at least `n`; or this instance has a fence, and a bid it had given
      up on landed behind it since, which the read-back takes for the lock held all along.
     */
    ghost predicate Committed(past: seq<Label>, n: nat)
      reads store, store.cluster
    {
      WatermarkReaches(store.cluster, n) || (Fenced() && store.cluster.LateBid(past))
    }

    lemma CommittedEarlier(past: seq<Label>, mid: seq<Label>, n: nat)
      requires past <= mid && Committed(mid, n)
      ensures Committed(past, n)
    {
    }

    /** Through the fence when the store has one; a rejection means leadership is lost. */
    method CommitOffset(n: nat) returns (err: set<Fault>)
      requires Valid() && store.cluster.Committable(n)
      modifies store.cluster, store.journal
      ensures Valid() && old(store.cluster.run) <= store.cluster.run
      ensures err == {} ==> Here() == At(n) && Committed(old(store.cluster.run), n)
      ensures err in {{}, {StoreFault}, {LostLeadership}}
      ensures store.journal.Took(CommitWatermark(if err == {} then Yes
                                                 else if LostLeadership in err then No else Failed))
    {
      if !Fenced() {
        var done := store.CommitOffset(n);
        return if done.Ok? then {} else {StoreFault};
      }
      var persisted := store.CommitOffsetFenced(n);
      if persisted.Err? {
        return {StoreFault};
      }
      if !persisted.value {
        return {LostLeadership};
      }
      return {};
    }

    method RenewLease() returns (err: set<Fault>)
      requires Valid()
      modifies elector, store, store.cluster, store.journal
      ensures Valid() && old(store.cluster.run) <= store.cluster.run && Here() == old(Here())
      ensures err in {{}, {LostLeadership}, {LostLeadership, LeaseRenewFailed, StoreFault}}
      ensures store.journal.Took(TryLease(if err == {} then Yes else if LeaseRenewFailed in err then Failed else No))
    {
      var held := TryLead();
      if held.Err? {
        return {LostLeadership, LeaseRenewFailed, StoreFault};
      }
      if !held.value {
        return {LostLeadership};
      }
      return {};
    }

    /** Asks for the lease. */
    method TryLead() returns (held: Result<bool>)
      requires Valid()
      modifies elector, store, store.cluster, store.journal
      ensures Valid() && old(store.cluster.run) <= store.cluster.run && Here() == old(Here())
      ensures store.journal.Took(TryLease(if held.Err? then Failed else if held.value then Yes else No))
    {
      held := elector.TryAcquire();
    }

    // ----- the phases

    /** Labels pages of pending rows until one is short, which leaves nothing pending. */
    method Sequence(ctx: Context) returns (err: set<Fault>)
      requires Valid()
      modifies elector, store, store.cluster, store.journal, ctx
      ensures Valid() && old(store.cluster.run) <= store.cluster.run && Here() == old(Here())
      ensures old(Obedient(store.journal.acts)) ==> Obedient(store.journal.acts)
      ensures Lost(store.journal.acts) <==> old(Lost(store.journal.acts)) || LostLeadership in err
      ensures Overruns(store.journal.acts) <==>
                old(Overruns(store.journal.acts) || (sequences && Lost(store.journal.acts)))
      ensures Refused(store.journal.acts) <==> old(Refused(store.journal.acts))
      ensures Accounts(old(store.journal.acts), store.journal.acts, err)
      ensures (RunCanceled in err ==> ctx.dead) && Undecodable !in err && ParkFault !in err
      ensures Paced(store.journal.acts, |old(store.journal.acts)|)
      ensures store.journal.acts != old(store.journal.acts) && EndsFull(store.journal.acts) ==> ctx.dead
      ensures old(store.journal.acts) <= store.journal.acts
      ensures SamePages(old(store.journal.acts), store.journal.acts)
      ensures if sequences then Labelling(store.journal.acts)
              else err == {} && store.journal.acts == old(store.journal.acts)
      ensures sequences && err == {} ==>
                || store.cluster.Cleared(old(store.cluster.run))
                || |store.journal.acts| == |old(store.journal.acts)| + 2 * MAX_PAGES_PER_TICK
      ensures (old(ctx.Live()) ==> ctx.Live()) && (old(ctx.dead) ==> ctx.dead)
    {
      hide Lane.Valid, Cluster.Valid, Exec, Next;
      if !sequences {
        return {};
      }
      for page := 0 to MAX_PAGES_PER_TICK
        invariant Valid() && old(store.cluster.run) <= store.cluster.run && Here() == old(Here())
        invariant old(Obedient(store.journal.acts)) ==> Obedient(store.journal.acts)
        invariant Lost(store.journal.acts) <==> old(Lost(store.journal.acts))
        invariant Overruns(store.journal.acts) <==>
                    old(Overruns(store.journal.acts)) || (page > 0 && old(Lost(store.journal.acts)))
        invariant Accounts(old(store.journal.acts), store.journal.acts, {})
        invariant Refused(store.journal.acts) <==> old(Refused(store.journal.acts))
        invariant Paced(store.journal.acts, |old(store.journal.acts)|) && (page > 0 ==> JustRenewed(store.journal.acts))
        invariant old(store.journal.acts) <= store.journal.acts
        invariant |store.journal.acts| == |old(store.journal.acts)| + 2 * page
        invariant SamePages(old(store.journal.acts), store.journal.acts)
        invariant page > 0 ==> Labelling(store.journal.acts)
        invariant (old(ctx.Live()) ==> ctx.Live()) && (old(ctx.dead) ==> ctx.dead)
      {
        ghost var mid, done := store.cluster.run, store.journal.acts;
        var more, fault := SequencePage(ctx);
        PacedOn(done, store.journal.acts, |old(store.journal.acts)|);
        if !more {
          if fault == {} {
            ClearedEarlier(store.cluster, old(store.cluster.run), mid);
          }
          return fault;
        }
      }
      return {};
    }

    /** One sequencing call. */
    method LabelRows() returns (n: Result<nat>)
      requires Valid()
      modifies store, store.cluster, store.journal
      ensures Valid() && old(store.cluster.run) <= store.cluster.run && Here() == old(Here())
      ensures store.journal.Took(SequenceRows(n))
      ensures n.Ok? ==> n.value <= sequenceBatchSize
      ensures n.Ok? && n.value < sequenceBatchSize ==> store.cluster.Cleared(old(store.cluster.run))
    {
      hide Lane.Valid, Cluster.Valid, Exec, Next, Cluster.Cleared;
      n := store.SequenceMessages(sequenceBatchSize);
    }

    /** A page that was full. */
    predicate Full(a: Act) {
      a.SequenceRows? && a.rows.Ok? && a.rows.value == sequenceBatchSize
    }

    ghost predicate EndsFull(acts: seq<Act>) {
      acts != [] && Full(acts[|acts| - 1])
    }

    /** A page, and behind a full one the lease. */
    ghost predicate OnePage(before: seq<Act>, after: seq<Act>) {
      var n := |before|;
      && n < |after| <= n + 2 && before == after[..n] && after[n].SequenceRows?
      && (|after| == n + 2 ==> Full(after[n]) && after[n + 1].TryLease?)
    }

    /** The acts from the `n`-th on take turns: full pages, and the lease won back behind each. */
    ghost predicate Paced(acts: seq<Act>, n: nat) {
      && (n < |acts| ==> acts[n].SequenceRows?)
      && forall k :: n < k < |acts| ==> Turns(acts[k - 1], acts[k])
    }

    predicate Turns(a: Act, b: Act) {
      if b.TryLease? then Full(a) else b.SequenceRows? && a == TryLease(Yes)
    }

    /** One page more behind a renewed lease, or the first. */
    lemma PacedOn(before: seq<Act>, after: seq<Act>, n: nat)
      requires n <= |before| && Paced(before, n) && (|before| > n ==> JustRenewed(before)) && OnePage(before, after)
      ensures Paced(after, n)
    {
      assert forall k :: 0 <= k < |before| ==> after[k] == before[k];
      forall k | n < k < |after|
        ensures Turns(after[k - 1], after[k])
      {
        if k < |before| {
          assert Turns(before[k - 1], before[k]);
        }
      }
    }

    /** One page, and the lease behind a full one: whether to go on, or why not. */
    method SequencePage(ctx: Context) returns (more: bool, err: set<Fault>)
      requires Valid()
      modifies elector, store, store.cluster, store.journal, ctx
      ensures Valid() && old(store.cluster.run) <= store.cluster.run && Here() == old(Here())
      ensures old(Obedient(store.journal.acts)) ==> Obedient(store.journal.acts)
      ensures Lost(store.journal.acts) <==> old(Lost(store.journal.acts)) || LostLeadership in err
      ensures Overruns(store.journal.acts) <==> old(Overruns(store.journal.acts) || Lost(store.journal.acts))
      ensures Refused(store.journal.acts) <==> old(Refused(store.journal.acts))
      ensures Accounts(old(store.journal.acts), store.journal.acts, err)
      ensures Labelling(store.journal.acts) && SamePages(old(store.journal.acts), store.journal.acts)
      ensures (RunCanceled in err ==> ctx.dead) && Undecodable !in err && ParkFault !in err
      ensures OnePage(old(store.journal.acts), store.journal.acts)
      ensures more ==> err == {} && |store.journal.acts| == |old(store.journal.acts)| + 2
      ensures more <==> JustRenewed(store.journal.acts)
      ensures EndsFull(store.journal.acts) ==> ctx.dead
      ensures !more && err == {} ==> store.cluster.Cleared(old(store.cluster.run))
      ensures (old(ctx.Live()) ==> ctx.Live()) && (old(ctx.dead) ==> ctx.dead)
    {
      hide Obedient, Lost, Listed, Labelling, Swept, Renewed, Overruns, Failing, Unanswered, Refused, Listings;
      hide Cluster.Cleared, FenceOpen;
      hide Relay.Valid, Exec, Next;
      var n := LabelRows();
      if n.Err? {
        return false, {StoreFault};
      }
      if n.value < sequenceBatchSize {
        return false, {};
      }
      var dead := ctx.Err();
      if dead {
        return false, {RunCanceled};
      }
      err := RenewLease();
      return err == {}, err;
    }

    /** The watermark is read, and a group without one is registered where the option says. */
    ghost predicate Primes(before: seq<Act>, after: seq<Act>) {
      var n := |before|;
      && n < |after| <= n + 2 && before == after[..n] && after[n].ReadWatermark?
      && (|after| == n + 2 <==> after[n] == ReadWatermark(Ok(false)))
      && (|after| == n + 2 ==> if startFromBeginning then after[n + 1].CommitWatermark? else after[n + 1].StartLatest?)
    }

    /** The group had no row, and the fence rejected its registration. */
    ghost predicate Rejected(acts: seq<Act>, n: nat) {
      n + 1 < |acts| && acts[n] == ReadWatermark(Ok(false)) && acts[n + 1] == CommitWatermark(No)
    }

    /** The pass knows its start: the group had a row, or was registered. */
    ghost predicate HasStart(acts: seq<Act>, n: nat) {
      && n < |acts|
      && (acts[n] == ReadWatermark(Ok(true))
          || (acts[n] == ReadWatermark(Ok(false)) && n + 1 < |acts|
              && acts[n + 1] in {CommitWatermark(Yes), StartLatest(true)}))
    }

    /** The offset the drain starts from; a group without a row gets one first. */
    method PrimeOffset() returns (offset: nat, err: set<Fault>)
      requires Valid() && Here().Idle? && store.journal.Clear()
      modifies store.cluster, store.journal
      ensures Valid() && old(store.cluster.run) <= store.cluster.run
      ensures err == {} ==> Here() == At(offset)
      ensures err == {} <==> HasStart(store.journal.acts, |old(store.journal.acts)|)
      ensures Refused(store.journal.acts) <==> old(Refused(store.journal.acts))
      ensures Accounts(old(store.journal.acts), store.journal.acts, err)
      ensures Obedient(store.journal.acts) && (Lost(store.journal.acts) <==> LostLeadership in err)
      ensures Primes(old(store.journal.acts), store.journal.acts)
      ensures SamePages(old(store.journal.acts), store.journal.acts)
      ensures startFromBeginning && err == {} && |store.journal.acts| == |old(store.journal.acts)| + 2 ==>
                offset == 0 && Committed(old(store.cluster.run), 0)
      ensures LostLeadership in err <==> Rejected(store.journal.acts, |old(store.journal.acts)|)
      ensures Overruns(store.journal.acts) <==> old(Overruns(store.journal.acts))
      ensures err in {{}, {StoreFault}, {LostLeadership}}
      ensures LeaseRenewFailed !in err
    {
      hide Obedient, Lost, Listed, Labelling, Swept, Renewed, Overruns, Failing, Unanswered, Refused, Listings;
      hide Lane.Valid, Cluster.Valid, Exec, Next, Relay.Committed;
      ghost var past := store.cluster.run;
      var found := store.Offset();
      if found.Err? {
        return 0, {StoreFault};
      }
      if found.value.Some? {
        return found.value.value, {};
      }
      ghost var read := store.cluster.run;
      offset, err := RegisterGroup();
      if startFromBeginning && err == {} {
        CommittedEarlier(past, read, 0);
      }
    }

    /** A group without a row is registered at 0, or at the newest seq. */
    method RegisterGroup() returns (offset: nat, err: set<Fault>)
      requires Valid() && Here().Unregistered?
      modifies store.cluster, store.journal
      ensures Valid() && old(store.cluster.run) <= store.cluster.run
      ensures err == {} ==> Here() == At(offset)
      ensures err in {{}, {StoreFault}, {LostLeadership}} && (LostLeadership in err ==> startFromBeginning)
      ensures startFromBeginning && err == {} ==> offset == 0 && Committed(old(store.cluster.run), 0)
      ensures store.journal.Took(if startFromBeginning
                                 then CommitWatermark(if err == {} then Yes
                                                      else if LostLeadership in err then No else Failed)
                                 else StartLatest(err == {}))
    {
      hide Obedient, Lost, Listed, Labelling, Swept, Renewed, Overruns, Failing, Unanswered, Refused, Listings;
      hide Lane.Valid, Cluster.Valid, Exec, Next;
      if startFromBeginning {
        err := CommitOffset(0);
        return 0, err;
      }
      var init := store.InitOffsetLatest();
      if init.Err? {
        return 0, {StoreFault};
      }
      return init.value, {};
    }

    // ----- delivering a page

    /** The instance works on a page that decodes to `msgs`, untouched. */
    ghost predicate OnPage(msgs: seq<nat>, offset: nat)
      reads store.cluster
    {
      && Here().Page? && Here().offset == offset && Here().done == 0
      && Here().decoded == |msgs| <= |Here().items| && Here().items[..|msgs|] == msgs
    }

    /** What delivering a page leaves: the protocol stands where the counts say. */
    ghost predicate Forwarded(page: Local, maxSeq: nat, sent: nat, outcome: PageOutcome)
      reads store.cluster
      requires page.Page?
    {
      && Here().Page? && Here() == page.(done := Here().done)
      && sent <= Here().done <= page.decoded <= |page.items|
      && maxSeq == Top(Here())
      && outcome != PageFull
      && (outcome == PageDone ==> Here().done == page.decoded)
    }

    /** Every message meets one fate from call `k` on, and a batch sender keeps the strict contract. */
    ghost predicate Steady(k: nat) {
      FromThen(lane.downstream, k) && (lane.batching ==> Strict(lane.downstream, k))
    }

    lemma BatchIsPositive()
      requires Valid()
      ensures batchSize > 0
    {
    }

    lemma ParksAlike(k: nat, l: nat, pos: nat)
      requires Steady(k) && k <= l
      ensures lane.downstream.parks(l, pos) == lane.downstream.parks(k, pos)
    {
    }

    /** The latest batch was acknowledged whole and came back with an error all the same. */
    predicate Overruled()
      reads lane.downstream
    {
      lane.downstream.calls > 0 && lane.downstream.overrules(lane.downstream.calls - 1).Some?
    }

    /**
      A stopped page counts as stuck exactly when a message of it is left. The other case is a
      whole page acknowledged with an error on top of it, and it stops without a report.
     */
    ghost predicate StopReported()
      reads store.cluster, lane.tracker, lane.downstream
    {
      && Here().Page?
      && (lane.EndsStuck() <==> Here().done < Here().decoded)
      && (!lane.EndsStuck() ==> lane.batching && Overruled())
    }

    /** Message `i` of the page: the send, its record in the protocol, and the watermark it has earned. */
    method ForwardOne(ctx: Context, msgs: seq<nat>, i: nat, maxSeq: nat) returns (next: nat, top: nat, d: Disposition)
      requires Valid() && i < |msgs|
      requires Here().Page? && Here().done == i && Here().decoded == |msgs| <= |Here().items|
      requires Here().items[..|msgs|] == msgs && maxSeq == Top(Here())
      modifies store.cluster, store.journal, lane, lane.downstream, lane.tracker, lane.clock, ctx
      ensures Valid() && old(store.cluster.run) <= store.cluster.run && store.journal.Delivered()
      ensures next == (if d == Sent || d == Parked then i + 1 else i)
      ensures Here() == old(Here()).(done := next) && top == Top(Here())
      ensures top == if next == i then maxSeq else msgs[i]
      ensures Concerns(old(lane.tracker.calls), lane.tracker.calls, msgs)
      ensures d == Sent || d == Parked ==> !lane.EndsStuck()
      ensures d != Stopped ==> (Refused(store.journal.acts) <==> old(Refused(store.journal.acts)))
      ensures (d == Stopped ==> lane.EndsStuck()) && (d == Canceled ==> ctx.dead)
      ensures (old(ctx.Live()) ==> ctx.Live()) && (old(ctx.dead) ==> ctx.dead)
      ensures old(lane.downstream.calls) < lane.downstream.calls
      ensures d == Judge(lane.hooks, lane.downstream.verdict(old(lane.downstream.calls), msgs[i]), ctx.dead,
                         lane.downstream.parks(old(lane.downstream.calls) + 1, msgs[i]))
    {
      hide Obedient, Lost, Listed, Labelling, Swept, Renewed, Overruns, Failing, Unanswered, Refused, Listings;
      hide Lane.Valid, Cluster.Valid, Exec, Next, Fits, Absorb, SendEvents, Parking, Concerns;
      var n := msgs[i];
      assert n == Here().items[..|msgs|][i];
      var seen := |lane.downstream.log|;
      d := lane.Send(ctx, n);
      ghost var v := lane.downstream.verdict(old(lane.downstream.calls), n);
      SendFits(Here(), lane.batching, lane.hooks, v, d, n);
      assert lane.downstream.log[seen..] == SendEvents(v, n) + Parking(lane.hooks, d, n);
      assert lane.downstream.log == store.cluster.delivered + lane.downstream.log[seen..];
      ConcernsOn(old(lane.tracker.calls), old(lane.tracker.calls), lane.tracker.calls, msgs, [n]);
      store.cluster.Mirror(lane.downstream.log[seen..]);
      next, top := i, maxSeq;
      if d == Sent || d == Parked {
        next, top := i + 1, n;
      }
    }

    /** Delivers a page one message at a time, or overlapped when the sender can. */
    method Forward(ctx: Context, msgs: seq<nat>, offset: nat) returns (maxSeq: nat, sent: nat, outcome: PageOutcome)
      requires Valid() && OnPage(msgs, offset)
      modifies store.cluster, store.journal, lane, lane.downstream, lane.tracker, lane.clock, ctx
      ensures Valid() && old(store.cluster.run) <= store.cluster.run && store.journal.Delivered()
      ensures Forwarded(old(Here()), maxSeq, sent, outcome)
      ensures (outcome == PageStopped ==> StopReported()) && (outcome == PageCanceled ==> ctx.dead)
      ensures old(lane.downstream.calls) <= lane.downstream.calls
      ensures Concerns(old(lane.tracker.calls), lane.tracker.calls, msgs)
      ensures outcome == PageDone && msgs != [] ==> !lane.EndsStuck()
      ensures outcome != PageStopped ==> (Refused(store.journal.acts) <==> old(Refused(store.journal.acts)))
      ensures old(ctx.dead) ==> ctx.dead && Here() == old(Here()) && (msgs != [] ==> outcome == PageCanceled)
      ensures (old(ctx.Live()) ==> ctx.Live()) && (old(ctx.dead) ==> ctx.dead)
      ensures old(ctx.Live()) && Steady(old(lane.downstream.calls)) ==>
                (maxSeq, sent, outcome) == PageResult(lane.hooks, lane.downstream.verdict, lane.downstream.parks,
                                                      old(lane.downstream.calls), msgs, offset)
    {
      hide Lane.Valid, Cluster.Valid, Exec, Next, PageResult, FromThen, Forwarded, Concerns;
      if lane.batching {
        maxSeq, sent, outcome := ForwardBatched(ctx, msgs, offset);
      } else {
        maxSeq, sent, outcome := ForwardSerial(ctx, msgs, offset);
      }
    }

    /** One message at a time, up to the first that stops the lane. */
    method ForwardSerial(ctx: Context, msgs: seq<nat>, offset: nat)
      returns (maxSeq: nat, sent: nat, outcome: PageOutcome)
      requires Valid() && OnPage(msgs, offset) && !lane.batching
      modifies store.cluster, store.journal, lane, lane.downstream, lane.tracker, lane.clock, ctx
      ensures Valid() && old(store.cluster.run) <= store.cluster.run && store.journal.Delivered()
      ensures Forwarded(old(Here()), maxSeq, sent, outcome)
      ensures (outcome == PageStopped ==> StopReported()) && (outcome == PageCanceled ==> ctx.dead)
      ensures old(lane.downstream.calls) <= lane.downstream.calls
      ensures Concerns(old(lane.tracker.calls), lane.tracker.calls, msgs)
      ensures outcome == PageDone && msgs != [] ==> !lane.EndsStuck()
      ensures outcome != PageStopped ==> (Refused(store.journal.acts) <==> old(Refused(store.journal.acts)))
      ensures old(ctx.dead) ==> ctx.dead && Here() == old(Here()) && (msgs != [] ==> outcome == PageCanceled)
      ensures (old(ctx.Live()) ==> ctx.Live()) && (old(ctx.dead) ==> ctx.dead)
      ensures old(ctx.Live()) && Steady(old(lane.downstream.calls)) ==>
                (maxSeq, sent, outcome) == PageResult(lane.hooks, lane.downstream.verdict, lane.downstream.parks,
                                                      old(lane.downstream.calls), msgs, offset)
    {
      hide Obedient, Lost, Listed, Labelling, Swept, Renewed, Overruns, Failing, Unanswered, Refused, Listings;
      hide Relay.Valid, Exec, Next, PageResult, Heads, Judge, AckedPrefix, FromThen, Concerns;
      maxSeq, sent, outcome := offset, 0, PageDone;
      ghost var page, k0, down := Here(), lane.downstream.calls, lane.downstream;
      ghost var steady := ctx.Live() && Steady(k0);
      ghost var whole := PageResult(lane.hooks, down.verdict, down.parks, k0, msgs, offset);
      HeadsOut(lane.hooks, down, k0, msgs, offset);
      NothingConcerns(lane.tracker.calls, msgs);
      var i := 0;
      while i < |msgs|
        invariant i <= |msgs| && outcome == PageDone
        invariant Valid() && old(store.cluster.run) <= store.cluster.run && store.journal.Delivered()
        invariant Here() == page.(done := i) && maxSeq == Top(Here()) && sent <= i
        invariant Concerns(old(lane.tracker.calls), lane.tracker.calls, msgs) && (i > 0 ==> !lane.EndsStuck())
        invariant (Refused(store.journal.acts) <==> old(Refused(store.journal.acts)))
        invariant (old(ctx.Live()) ==> ctx.Live()) && (old(ctx.dead) ==> ctx.dead && i == 0)
        invariant k0 <= down.calls
        invariant steady ==> Heads(lane.hooks, down, k0, msgs, i, maxSeq, sent, whole)
      {
        var dead := ctx.Err();
        if dead {
          return maxSeq, sent, PageCanceled;
        }
        ghost var k := down.calls;
        ghost var heard := lane.tracker.calls;
        var next, top, d := ForwardOne(ctx, msgs, i, maxSeq);
        ConcernsOn(old(lane.tracker.calls), heard, lane.tracker.calls, msgs, msgs);
        if steady {
          HeadsOn(lane.hooks, down, k0, k, msgs, i, maxSeq, sent, whole, d);
        }
        i, maxSeq, sent := next, top, if d == Sent then sent + 1 else sent;
        match d {
          case Sent =>
          case Parked =>
          case Canceled => return maxSeq, sent, PageCanceled;
          case Stopped => return maxSeq, sent, PageStopped;
        }
      }
      if steady {
        HeadsHome(lane.hooks, down, k0, msgs, maxSeq, sent, whole);
      }
    }

    /** The rest of a page as one batch, and its record in the protocol. */
    method ForwardRest(ctx: Context, rest: seq<nat>) returns (sent: nat, advanced: nat, d: Disposition)
      requires Valid() && lane.batching && rest != []
      requires Here().Page? && Here().done < Here().decoded <= |Here().items|
      requires rest == Here().items[Here().done..Here().decoded]
      modifies store.cluster, store.journal, lane, lane.downstream, lane.tracker, lane.clock, ctx
      ensures Valid() && old(store.cluster.run) <= store.cluster.run && store.journal.Delivered()
      ensures sent <= advanced <= |rest| && advanced == sent + (if d == Parked then 1 else 0)
      ensures Here() == old(Here()).(done := old(Here().done) + advanced)
      ensures (old(ctx.Live()) ==> ctx.Live()) && (old(ctx.dead) ==> ctx.dead)
      ensures old(lane.downstream.calls) < lane.downstream.calls
      ensures d == Sent ==> sent == |rest|
      ensures Concerns(old(lane.tracker.calls), lane.tracker.calls, rest)
      ensures d == Sent || d == Parked ==> !lane.EndsStuck()
      ensures d != Stopped ==> (Refused(store.journal.acts) <==> old(Refused(store.journal.acts)))
      ensures d == Stopped ==> (lane.EndsStuck() <==> sent < |rest|) && (sent < |rest| || Overruled())
      ensures d == Canceled ==> ctx.dead
      ensures ByBatch(lane.hooks, lane.downstream, old(lane.downstream.calls), rest, sent, d, ctx.dead)
    {
      hide Obedient, Lost, Listed, Labelling, Swept, Renewed, Overruns, Failing, Unanswered, Refused, Listings;
      hide Lane.Valid, Cluster.Valid, Exec, Next, Fits, Absorb, Wave;
      hide Acks, Parking, AckedPrefix, Judge, Concerns, Lane.Tracked, Lane.EndsStuck;
      var seen := |lane.downstream.log|;
      sent, advanced, d := lane.SendBatch(ctx, rest);
      ghost var wave := Wave(lane.downstream.verdict, old(lane.downstream.calls), rest);
      JudgeOfRefusal(lane.hooks);
      BatchFits(Here(), lane.hooks, rest, wave, sent, d);
      assert lane.downstream.log[seen..]
          == wave + Acks(rest[..sent]) + if sent < |rest| then Parking(lane.hooks, d, rest[sent]) else [];
      assert lane.downstream.log == store.cluster.delivered + lane.downstream.log[seen..];
      store.cluster.Mirror(lane.downstream.log[seen..]);
    }

    /** One batch from message `i` on: the new position, and the watermark it has earned. */
    method ForwardFrom(ctx: Context, msgs: seq<nat>, i: nat, maxSeq: nat)
      returns (sent: nat, next: nat, top: nat, d: Disposition)
      requires Valid() && lane.batching && i < |msgs|
      requires Here().Page? && Here().done == i && Here().decoded == |msgs| <= |Here().items|
      requires Here().items[..|msgs|] == msgs && maxSeq == Top(Here())
      modifies store.cluster, store.journal, lane, lane.downstream, lane.tracker, lane.clock, ctx
      ensures Valid() && old(store.cluster.run) <= store.cluster.run && store.journal.Delivered()
      ensures i + sent <= next <= |msgs| && next == i + sent + (if d == Parked then 1 else 0)
      ensures d == Sent ==> next == |msgs|
      ensures Concerns(old(lane.tracker.calls), lane.tracker.calls, msgs)
      ensures d == Sent || d == Parked ==> !lane.EndsStuck()
      ensures d != Stopped ==> (Refused(store.journal.acts) <==> old(Refused(store.journal.acts)))
      ensures d == Stopped ==> (lane.EndsStuck() <==> next < |msgs|) && (next < |msgs| || Overruled())
      ensures d == Canceled ==> ctx.dead
      ensures Here() == old(Here()).(done := next) && top == Top(Here())
      ensures top == if next == i then maxSeq else msgs[next - 1]
      ensures (old(ctx.Live()) ==> ctx.Live()) && (old(ctx.dead) ==> ctx.dead)
      ensures old(lane.downstream.calls) < lane.downstream.calls
      ensures ByBatch(lane.hooks, lane.downstream, old(lane.downstream.calls), msgs[i..], sent, d, ctx.dead)
    {
      hide Lane.Valid, Cluster.Valid, Exec, Next, PageResult, Heads, Judge, AckedPrefix, Concerns;
      assert Here().items[i..|msgs|] == msgs[i..];
      var advanced;
      ghost var heard := lane.tracker.calls;
      sent, advanced, d := ForwardRest(ctx, msgs[i..]);
      ConcernsOn(heard, heard, lane.tracker.calls, msgs, msgs[i..]);
      next, top := i + advanced, maxSeq;
      if advanced > 0 {
        top := msgs[i + advanced - 1];
      }
    }

    /** The overlapped form: one batch per parked message, same answer. */
    method ForwardBatched(ctx: Context, msgs: seq<nat>, offset: nat)
      returns (maxSeq: nat, sent: nat, outcome: PageOutcome)
      requires Valid() && OnPage(msgs, offset) && lane.batching
      modifies store.cluster, store.journal, lane, lane.downstream, lane.tracker, lane.clock, ctx
      ensures Valid() && old(store.cluster.run) <= store.cluster.run && store.journal.Delivered()
      ensures Forwarded(old(Here()), maxSeq, sent, outcome)
      ensures (outcome == PageStopped ==> StopReported()) && (outcome == PageCanceled ==> ctx.dead)
      ensures old(lane.downstream.calls) <= lane.downstream.calls
      ensures Concerns(old(lane.tracker.calls), lane.tracker.calls, msgs)
      ensures outcome == PageDone && msgs != [] ==> !lane.EndsStuck()
      ensures outcome != PageStopped ==> (Refused(store.journal.acts) <==> old(Refused(store.journal.acts)))
      ensures old(ctx.dead) ==> ctx.dead && Here() == old(Here()) && (msgs != [] ==> outcome == PageCanceled)
      ensures (old(ctx.Live()) ==> ctx.Live()) && (old(ctx.dead) ==> ctx.dead)
      ensures old(ctx.Live()) && Steady(old(lane.downstream.calls)) ==>
                (maxSeq, sent, outcome) == PageResult(lane.hooks, lane.downstream.verdict, lane.downstream.parks,
                                                      old(lane.downstream.calls), msgs, offset)
    {
      hide Obedient, Lost, Listed, Labelling, Swept, Renewed, Overruns, Failing, Unanswered, Refused, Listings;
      hide Lane.Valid, Cluster.Valid, Exec, Next, PageResult, Heads, Judge, AckedPrefix, ByBatch, FromThen, Strict;
      hide Relay.Valid, Lane.EndsStuck, Overruled, Concerns;
      maxSeq, sent := offset, 0;
      ghost var page, k0, down := Here(), lane.downstream.calls, lane.downstream;
      ghost var steady := ctx.Live() && Steady(k0);
      ghost var whole := PageResult(lane.hooks, down.verdict, down.parks, k0, msgs, offset);
      HeadsOut(lane.hooks, down, k0, msgs, offset);
      NothingConcerns(lane.tracker.calls, msgs);
      var i := 0;
      while i < |msgs|
        invariant i <= |msgs|
        invariant Valid() && old(store.cluster.run) <= store.cluster.run && store.journal.Delivered()
        invariant Here() == page.(done := i) && maxSeq == Top(Here()) && sent <= i
        invariant Concerns(old(lane.tracker.calls), lane.tracker.calls, msgs) && (i > 0 ==> !lane.EndsStuck())
        invariant (Refused(store.journal.acts) <==> old(Refused(store.journal.acts)))
        invariant (old(ctx.Live()) ==> ctx.Live()) && (old(ctx.dead) ==> ctx.dead && i == 0)
        invariant k0 <= down.calls
        invariant steady ==> Heads(lane.hooks, down, k0, msgs, i, maxSeq, sent, whole)
        decreases |msgs| - i
      {
        var dead := ctx.Err();
        if dead {
          return maxSeq, sent, PageCanceled;
        }
        ghost var k := down.calls;
        ghost var heard := lane.tracker.calls;
        var n, next, top, d := ForwardFrom(ctx, msgs, i, maxSeq);
        ConcernsOn(old(lane.tracker.calls), heard, lane.tracker.calls, msgs, msgs);
        if steady {
          HeadsOnByBatch(lane.hooks, down, k0, k, msgs, i, maxSeq, sent, whole, n, next, top, d);
        }
        i, maxSeq, sent := next, top, sent + n;
        match d {
          case Sent =>
          case Parked =>
          case Canceled => return maxSeq, sent, PageCanceled;
          case Stopped => return maxSeq, sent, PageStopped;
        }
      }
      if steady {
        HeadsHome(lane.hooks, down, k0, msgs, maxSeq, sent, whole);
      }
      return maxSeq, sent, PageDone;
    }

    /** The undecodable row behind a fully delivered page goes to the handler, if there is one. */
    method ParkPoison(ctx: Context, poison: nat) returns (parked: bool, failed: bool)
      requires Valid() && Here().Page? && Here().done == Here().decoded < |Here().items|
      requires poison == Here().items[Here().done]
      modifies store.cluster, store.journal, lane.downstream, lane.tracker, ctx
      ensures Valid() && old(store.cluster.run) <= store.cluster.run && store.journal.Delivered()
      ensures Here() == old(Here()).(done := old(Here().done) + if parked then 1 else 0)
      ensures (old(ctx.Live()) ==> ctx.Live()) && (old(ctx.dead) ==> ctx.dead)
      ensures parked || failed ==> lane.hooks.poison && !old(ctx.dead)
      ensures lane.hooks.poison && !ctx.dead ==> parked || failed
      ensures old(ctx.dead) ==> ctx.dead
      ensures parked || failed ==>
                parked == lane.downstream.parks(old(lane.downstream.calls), poison) && !(parked && failed)
      ensures lane.tracker.calls == old(lane.tracker.calls) + if parked then [ProgressAt(poison)] else []
      ensures Refused(store.journal.acts) <==> old(Refused(store.journal.acts)) || failed
    {
      hide Lane.Valid, Cluster.Valid, Exec, Next;
      parked, failed := false, false;
      if lane.hooks.poison {
        var dead := ctx.Err();
        if !dead {
          var seen := |lane.downstream.log|;
          var ok := lane.Park(poison);
          ghost var events := if ok then [ParkConfirmed(poison)] else [];
          assert lane.downstream.log[seen..] == events;
          assert lane.downstream.log == store.cluster.delivered + lane.downstream.log[seen..];
          assert ok ==> events[1..] == [];
          store.cluster.Mirror(lane.downstream.log[seen..]);
          parked, failed := ok, !ok;
        }
      }
    }

    /** What delivering this page comes to at send `k`, message by message, and its poison row behind it. */
    ghost predicate Delivers(k: nat, listing: Listing, offset: nat, maxSeq: nat, outcome: PageOutcome, parked: bool,
                             failed: bool)
    {
      var down := lane.downstream;
      var page := PageResult(lane.hooks, down.verdict, down.parks, k, listing.msgs, offset);
      var tried := outcome == PageDone && listing.poison.Some? && lane.hooks.poison;
      && outcome == page.2
      && parked == (tried && down.parks(k, listing.poison.value)) && failed == (tried && !parked)
      && maxSeq == if parked then listing.poison.value else page.0
    }

    /** What the page comes to at send `k`, its ending included, when the commit goes well. */
    ghost function Whole(k: nat, listing: Listing, offset: nat): (nat, PageOutcome, set<Fault>) {
      WholePage(lane.hooks, lane.downstream.verdict, lane.downstream.parks, k, listing, offset, batchSize)
    }

    lemma DeliversWhole(k: nat, listing: Listing, offset: nat, maxSeq: nat, outcome: PageOutcome, parked: bool,
                        failed: bool)
      requires Delivers(k, listing, offset, maxSeq, outcome, parked, failed)
      ensures var end := Ending(listing, outcome, parked, failed, batchSize);
              Whole(k, listing, offset) == (maxSeq, end.0, end.1)
    {
    }

    /** What an ending says. */
    lemma EndingIs(listing: Listing, outcome: PageOutcome, parked: bool, failed: bool)
      requires batchSize > 0 && |listing.msgs| <= batchSize && (parked ==> listing.poison.Some?)
      ensures var (ending, err) := Ending(listing, outcome, parked, failed, batchSize);
              && err in {{}, {Undecodable}, {Undecodable, ParkFault}} && (err == {Undecodable} ==> !failed)
              && (Undecodable in err <==> outcome == PageDone && listing.poison.Some? && !parked)
              && (ParkFault in err <==> Undecodable in err && failed)
              && (outcome != PageDone ==> ending == outcome && err == {})
              && (outcome == PageDone && err == {} ==> listing.poison.None? || parked)
              && (outcome == PageDone && err == {} && ending != PageFull ==>
                    ending == PageDone && RowsOn(listing) < batchSize)
              && (outcome == PageDone && err == {} && ending == PageFull ==> RowsOn(listing) > 0)
              && (outcome == PageDone && err != {} ==> ending == PageDone && listing.poison.Some? && !parked)
              && (outcome == PageDone ==> ending == PageDone || ending == PageFull)
    {
    }

    lemma PoisonIsNone(page: Local, listing: Listing)
      requires Valid() && Here().Page? && page.Page? && listing.poison.Some? && Here() == page.(done := Here().done)
      requires page.items == listing.msgs + [listing.poison.value]
      ensures listing.poison.value !in listing.msgs
    {
      PoisonIsNoMessage(store.cluster, page, listing);
    }

    lemma PageIsInOrder(page: Local)
      requires Valid() && Here().Page? && page.Page? && Here() == page.(done := Here().done)
      ensures Here().done <= |Here().items| && (Here().done > 0 <==> Top(Here()) > Here().offset)
      ensures forall j, k :: 0 <= j < k < |Here().items| ==> Here().items[j] < Here().items[k]
    {
      PageAscends(store.cluster, page);
    }

    /** What a page has earned once its messages, and once its poison row, are passed. */
    lemma TopOfPage(page: Local, offset: nat, listing: Listing)
      requires Valid() && Here().Page? && Holds(page, offset, listing) && Here() == page.(done := Here().done)
      ensures Here().done <= |Here().items| && Here().offset == offset
      ensures Top(Here()) >= offset && (Top(Here()) > offset <==> Here().done > 0)
      ensures Here().done == |listing.msgs| ==> Top(Here()) == LastDecoded(listing, offset)
      ensures listing.poison.Some? && Here().done == |listing.msgs| + 1 ==>
                LastDecoded(listing, offset) <= Top(Here()) == listing.poison.value
    {
      PageOfListing(page, offset, listing);
      PageIsInOrder(page);
    }

    lemma HeardMore(before: seq<Call<nat>>, msgs: seq<nat>)
      requires Concerns(before, lane.tracker.calls, msgs)
      ensures before <= lane.tracker.calls
    {
    }

    lemma StuckElsewhere(before: seq<Call<nat>>, msgs: seq<nat>, pos: nat)
      requires Concerns(before, lane.tracker.calls, msgs) && pos !in msgs
      ensures !StuckOn(before, pos)
    {
    }

    /** Delivers a listed page and its poison row: what it earned, and how it ended. */
    method DeliverPage(ctx: Context, offset: nat, listing: Listing)
      returns (maxSeq: nat, outcome: PageOutcome, parked: bool, failed: bool)
      requires Valid() && Holds(Here(), offset, listing)
      modifies store.cluster, store.journal, lane, lane.downstream, lane.tracker, lane.clock, ctx
      ensures Valid() && old(store.cluster.run) <= store.cluster.run && store.journal.Delivered()
      ensures Here().Page? && Here().offset == offset && Here().done <= |Here().items| && maxSeq == Top(Here())
      ensures maxSeq >= offset && (maxSeq > offset <==> Here().done > 0)
      ensures outcome == PageDone ==> Here().done == |listing.msgs| + if parked then 1 else 0
      ensures outcome != PageFull && (parked || failed ==> outcome == PageDone && listing.poison.Some?)
      ensures !(parked && failed) && (parked || failed ==> lane.hooks.poison)
      ensures outcome == PageDone ==> maxSeq == if parked then listing.poison.value else LastDecoded(listing, offset)
      ensures old(lane.tracker.calls) <= lane.tracker.calls
      ensures outcome == PageDone && Here().done > 0 ==> !lane.EndsStuck()
      ensures listing.poison.Some? ==> !StuckOn(old(lane.tracker.calls), listing.poison.value)
      ensures failed ==> Refused(store.journal.acts)
      ensures !failed && outcome != PageStopped ==> (Refused(store.journal.acts) <==> old(Refused(store.journal.acts)))
      ensures old(ctx.dead) && listing.msgs != [] ==> outcome == PageCanceled && maxSeq == offset
      ensures old(ctx.Live()) && Steady(old(lane.downstream.calls)) ==>
                Delivers(old(lane.downstream.calls), listing, offset, maxSeq, outcome, parked, failed)
      ensures listing.poison.Some? && outcome == PageDone && lane.hooks.poison && !ctx.dead ==> parked || failed
      ensures (outcome == PageStopped ==> StopReported()) && (outcome == PageCanceled ==> ctx.dead)
      ensures old(ctx.dead) ==> ctx.dead && Here() == old(Here())
      ensures (old(ctx.Live()) ==> ctx.Live()) && (old(ctx.dead) ==> ctx.dead)
    {
      hide Obedient, Lost, Listed, Labelling, Swept, Renewed, Overruns, Failing, Unanswered, Refused, Listings;
      hide Relay.Valid, Exec, Next, PageResult, FromThen, Holds, Concerns, Top, LastDecoded, Relay.StopReported;
      hide Cluster.Valid, Lane.Valid;
      ghost var page, k := Here(), lane.downstream.calls;
      PageOfListing(page, offset, listing);
      var sent;
      maxSeq, sent, outcome := Forward(ctx, listing.msgs, offset);
      HeardMore(old(lane.tracker.calls), listing.msgs);
      TopOfPage(page, offset, listing);
      if listing.poison.Some? {
        PoisonIsNone(page, listing);
        StuckElsewhere(old(lane.tracker.calls), listing.msgs, listing.poison.value);
      }
      parked, failed := false, false;
      if listing.poison.Some? && outcome == PageDone {
        ghost var l := lane.downstream.calls;
        parked, failed := ParkPoison(ctx, listing.poison.value);
        if Steady(k) {
          ParksAlike(k, l, listing.poison.value);
        }
      }
      TopOfPage(page, offset, listing);
      if parked {
        maxSeq := Max(maxSeq, listing.poison.value);
      }
    }

    /** A store fault, or an unanswerable lease, is reported exactly where the journal has met one since. */
    ghost predicate Accounts(before: seq<Act>, after: seq<Act>, err: set<Fault>) {
      && (Failing(after) <==> Failing(before) || StoreFault in err)
      && (Unanswered(after) <==> Unanswered(before) || LeaseRenewFailed in err)
    }

    /** No page was listed and nothing swept between these two. */
    ghost predicate SamePages(before: seq<Act>, after: seq<Act>) {
      && (Listed(after) <==> Listed(before)) && Listings(after) == Listings(before)
      && (Renewed(before) ==> Renewed(after)) && (Swept(after) <==> Swept(before))
    }

    /** Commits what a page earned, if it earned anything. */
    method CommitPage(offset: nat, maxSeq: nat) returns (next: nat, err: set<Fault>)
      requires Valid() && store.journal.Clear() && maxSeq >= offset
      requires maxSeq > offset ==> store.cluster.Committable(maxSeq)
      modifies store.cluster, store.journal
      ensures Valid() && old(store.cluster.run) <= store.cluster.run
      ensures Obedient(store.journal.acts) && (Lost(store.journal.acts) <==> LostLeadership in err)
      ensures SamePages(old(store.journal.acts), store.journal.acts) && old(store.journal.acts) <= store.journal.acts
      ensures Overruns(store.journal.acts) <==> old(Overruns(store.journal.acts))
      ensures (Refused(store.journal.acts) <==> old(Refused(store.journal.acts)))
      ensures err in {{}, {StoreFault}, {LostLeadership}}
      ensures Accounts(old(store.journal.acts), store.journal.acts, err)
      ensures err == {} ==>
                && next == maxSeq
                && (maxSeq > offset ==> Here() == At(next) && Committed(old(store.cluster.run), next))
      ensures err != {} ==> next == offset
      ensures maxSeq == offset ==> Here() == old(Here()) && err == {}
    {
      hide Lane.Valid, Cluster.Valid, Exec, Next;
      next, err := offset, {};
      if maxSeq > offset {
        err := CommitOffset(maxSeq);
        if err != {} {
          return;
        }
        next := maxSeq;
      }
    }

    /** The latest page could not be listed. */
    ghost predicate Unlisted()
      reads store.journal
    {
      var pages := Listings(store.journal.acts);
      pages != [] && pages[|pages| - 1].Err?
    }

    /** The latest page that was read. */
    ghost function LastPage(): Option<Reading>
      reads store.journal
    {
      var pages := Listings(store.journal.acts);
      if pages != [] && pages[|pages| - 1].Ok? then Some(pages[|pages| - 1].value) else None
    }

    /** The latest page listed came up short. */
    ghost predicate LastIsShort()
      reads store.journal
    {
      LastPage().Some? && LastPage().value.Rows() < batchSize
    }

    /** Since then the lane was reported stuck, and the last it was reported at is this row. */
    ghost predicate StuckOn(before: seq<Call<nat>>, pos: nat)
      reads lane.tracker
    {
      var calls := lane.tracker.calls;
      |calls| > |before| && calls[|calls| - 1].StuckAt? && calls[|calls| - 1].pos == pos
    }

    /** The latest page read has a row that does not decode, and since then the lane is stuck there. */
    ghost predicate Wedged(before: seq<Call<nat>>)
      reads store.journal, lane.tracker
    {
      LastPage().Some? && LastPage().value.poison.Some? && StuckOn(before, LastPage().value.poison.value)
    }

    /** A wedge, and a park that failed, are reported exactly where they happened. */
    ghost predicate TellsTheWedge(before: seq<Call<nat>>, refused: bool, err: set<Fault>)
      reads store.journal, lane.tracker
    {
      && (Undecodable in err <==> Wedged(before))
      && (ParkFault in err ==> Undecodable in err)
      && (!refused ==> (ParkFault in err <==> Undecodable in err && Refused(store.journal.acts)))
    }

    /** A dead context that found messages on the page is reported. */
    ghost predicate TellsTheEnd(wasDead: bool, dead: bool, err: set<Fault>)
      reads store.journal
    {
      && (RunCanceled in err ==> dead)
      && (wasDead && LastPage().Some? && LastPage().value.decoded > 0 ==> RunCanceled in err)
    }

    /** Something was delivered and its watermark not committed. */
    ghost predicate Unsettled()
      reads store.cluster
    {
      Here().Page? && Here().done > 0
    }

    /** Nothing listed is left in hand. */
    ghost predicate Finished()
      reads store.cluster
    {
      Here().At? || (Here().Page? && Here().items == [])
    }

    /** Since `past` this instance listed the rows behind `offset`, and they decode to this. */
    ghost predicate ReadAs(past: seq<Label>, offset: nat, listing: Listing)
      reads store, store.cluster
    {
      var c := store.cluster;
      exists k :: |past| <= k < |c.run| && c.run[k] == List(c.me, batchSize)
                  && Holds(LocalOf(Exec(c.site, c.run[..k + 1]), c.me), offset, listing)
    }

    /** What was read stays read. */
    lemma ReadEarlier(past: seq<Label>, mid: seq<Label>, offset: nat, listing: Listing)
      requires past != mid && |past| < |mid| && mid <= store.cluster.run
      requires mid[|mid| - 1] == List(store.cluster.me, batchSize)
      requires Holds(LocalOf(Exec(store.cluster.site, mid), store.cluster.me), offset, listing)
      ensures ReadAs(past, offset, listing)
    {
      var k := |mid| - 1;
      assert store.cluster.run[..k + 1] == mid && store.cluster.run[k] == mid[k];
    }

    /** Delivers one page and commits what it delivered. */
    method DrainPage(ctx: Context, offset: nat)
      returns (next: nat, outcome: PageOutcome, err: set<Fault>, ghost listing: Listing)
      requires Valid() && Here() == At(offset) && store.journal.Clear()
      requires Renewed(store.journal.acts) && (Listed(store.journal.acts) ==> JustRenewed(store.journal.acts))
      modifies store.cluster, store.journal, lane, lane.downstream, lane.tracker, lane.clock, ctx
      ensures Swept(store.journal.acts) <==> old(Swept(store.journal.acts))
      ensures Overruns(store.journal.acts) <==> old(Overruns(store.journal.acts))
      ensures Accounts(old(store.journal.acts), store.journal.acts, err)
      ensures Valid() && old(store.cluster.run) <= store.cluster.run
      ensures Obedient(store.journal.acts) && (Lost(store.journal.acts) <==> LostLeadership in err)
      ensures Listed(store.journal.acts) && old(store.journal.acts) <= store.journal.acts
      ensures Renewed(store.journal.acts)
      ensures |Listings(store.journal.acts)| == |old(Listings(store.journal.acts))| + 1
      ensures outcome == PageDone && err == {} ==> LastIsShort()
      ensures outcome == PageStopped ==> lane.EndsStuck() || Overruled()
      ensures Undecodable in err ==> lane.EndsStuck()
      ensures Unlisted() && !ctx.dead ==> lane.EndsStuck()
      ensures old(lane.tracker.calls) <= lane.tracker.calls && RunCanceled !in err
      ensures outcome == PageCanceled ==> ctx.dead
      ensures TellsTheWedge(old(lane.tracker.calls), old(Refused(store.journal.acts)), err)
      ensures err == {} && outcome == PageFull ==>
                !lane.EndsStuck() && (Refused(store.journal.acts) <==> old(Refused(store.journal.acts)))
      ensures old(ctx.dead) && LastPage().Some? && LastPage().value.decoded > 0 ==> outcome == PageCanceled && err == {}
      ensures LeaseRenewFailed !in err
      ensures if Unlisted() then err == {StoreFault} else ReadAs(old(store.cluster.run), offset, listing)
      ensures err == {} && outcome == PageFull ==> Here() == At(next) && next > offset
      ensures err == {} && outcome == PageDone ==> Finished()
      ensures err == {} && (outcome == PageDone || outcome == PageFull) ==> next == LastListed(listing, offset)
      ensures old(ctx.Live()) && Steady(old(lane.downstream.calls)) ==>
                || err == {StoreFault} || err == {LostLeadership}
                || (next, outcome, err) == Whole(old(lane.downstream.calls), listing, offset)
      ensures StoreFault !in err && LostLeadership !in err ==> !Unsettled()
      ensures next >= offset && (next > offset ==> Committed(old(store.cluster.run), next))
      ensures (old(ctx.Live()) ==> ctx.Live()) && (old(ctx.dead) ==> ctx.dead)
    {
      hide Obedient, Lost, Listed, Labelling, Swept, Renewed, Overruns, Failing, Unanswered, Refused, Listings;
      hide Relay.Valid, Relay.ReadAs, Exec, Next, Top, Holds, Relay.Committed, Relay.Steady, Overruled, Lane.EndsStuck;
      hide Relay.StuckOn, Relay.TellsTheWedge, Relay.LastPage, Relay.Unlisted;
      BatchIsPositive();
      listing := Listing([], None);
      ghost var heard, refused := lane.tracker.calls, Refused(store.journal.acts);
      var listed := ListPage(offset);
      if listed.Err? {
        var dead := ctx.Err();
        if !dead {
          Stuck(offset);
        }
        NothingRead(heard, refused, {StoreFault});
        return offset, PageDone, {StoreFault}, listing;
      }
      listing := listed.value;
      ghost var mid := store.cluster.run;
      PageOfListing(Here(), offset, listing);
      if listed.value.msgs == [] && listed.value.poison.None? {
        ReadEarlier(old(store.cluster.run), mid, offset, listing);
        NothingRead(heard, refused, {});
        return offset, PageDone, {}, listing;
      }
      next, outcome, err := PassPage(ctx, offset, listed.value);
      ReadEarlier(old(store.cluster.run), mid, offset, listing);
      WedgeTold(heard, refused, err);
      if next > offset {
        CommittedEarlier(old(store.cluster.run), mid, next);
      }
    }

    /** A page that was not read, or has no row that does not decode, leaves no wedge to tell. */
    lemma NothingRead(before: seq<Call<nat>>, refused: bool, err: set<Fault>)
      requires LastPage().None? || LastPage().value.poison.None?
      requires Undecodable !in err && ParkFault !in err
      ensures TellsTheWedge(before, refused, err)
    {
    }

    lemma WedgeTold(before: seq<Call<nat>>, refused: bool, err: set<Fault>)
      requires LastPage().Some?
      requires var poison := LastPage().value.poison;
               Undecodable in err <==> poison.Some? && StuckOn(before, poison.value)
      requires ParkFault in err ==> Undecodable in err
      requires !refused ==> (ParkFault in err <==> Undecodable in err && Refused(store.journal.acts))
      ensures TellsTheWedge(before, refused, err)
    {
    }

    /** The lane is stuck at this seq. */
    method Stuck(pos: nat)
      requires Valid()
      modifies lane, lane.tracker, lane.clock
      ensures Valid() && Here() == old(Here()) && lane.EndsStuck()
      ensures old(lane.tracker.calls) < lane.tracker.calls
    {
      hide Cluster.Valid;
      lane.Stuck(pos);
    }

    /** One listing of the rows behind `offset`. */
    method ListPage(offset: nat) returns (listed: Result<Listing>)
      requires Valid() && Here() == At(offset)
      modifies store.cluster, store.journal
      ensures Valid() && old(store.cluster.run) <= store.cluster.run
      ensures store.journal.Took(Act.ListPage(if listed.Ok? then Ok(ReadingOf(listed.value)) else Err))
      ensures listed.Ok? ==>
                && |old(store.cluster.run)| < |store.cluster.run|
                && store.cluster.run[|store.cluster.run| - 1] == List(store.cluster.me, batchSize)
                && Holds(LocalOf(Exec(store.cluster.site, store.cluster.run), store.cluster.me), offset, listed.value)
                && Holds(Here(), offset, listed.value) && |listed.value.msgs| <= batchSize
      ensures (listed.Err? <==> Unlisted()) && LastPage() == if listed.Ok? then Some(ReadingOf(listed.value)) else None
    {
      hide Lane.Valid, Exec, Next;
      listed := store.ListMessages(offset, batchSize);
    }

    /** Delivers a listed page, commits what it earned, and says how it ended. */
    method PassPage(ctx: Context, offset: nat, listing: Listing)
      returns (next: nat, outcome: PageOutcome, err: set<Fault>)
      requires Valid() && Holds(Here(), offset, listing) && store.journal.Clear() && |listing.msgs| <= batchSize
      modifies store.cluster, store.journal, lane, lane.downstream, lane.tracker, lane.clock, ctx
      ensures Valid() && old(store.cluster.run) <= store.cluster.run
      ensures Obedient(store.journal.acts) && (Lost(store.journal.acts) <==> LostLeadership in err)
      ensures SamePages(old(store.journal.acts), store.journal.acts) && old(store.journal.acts) <= store.journal.acts
      ensures Overruns(store.journal.acts) <==> old(Overruns(store.journal.acts))
      ensures Accounts(old(store.journal.acts), store.journal.acts, err)
      ensures outcome == PageDone && err == {} ==> RowsOn(listing) < batchSize
      ensures outcome == PageStopped ==> lane.EndsStuck() || Overruled()
      ensures Undecodable in err ==> lane.EndsStuck()
      ensures lane.hooks.poison && !ctx.dead ==> err != {Undecodable}
      ensures old(lane.tracker.calls) <= lane.tracker.calls && RunCanceled !in err
      ensures outcome == PageCanceled ==> ctx.dead
      ensures Undecodable in err <==>
                listing.poison.Some? && StuckOn(old(lane.tracker.calls), listing.poison.value)
      ensures ParkFault in err ==> Undecodable in err
      ensures !old(Refused(store.journal.acts)) ==>
                (ParkFault in err <==> Undecodable in err && Refused(store.journal.acts))
      ensures err == {} && outcome == PageFull ==>
                !lane.EndsStuck() && (Refused(store.journal.acts) <==> old(Refused(store.journal.acts)))
      ensures old(ctx.dead) && listing.msgs != [] ==> outcome == PageCanceled && err == {}
      ensures LastPage() == old(LastPage()) && (Unlisted() <==> old(Unlisted()))
      ensures LeaseRenewFailed !in err
      ensures err == {} && outcome == PageFull ==> Here() == At(next) && next > offset
      ensures err == {} && outcome == PageDone && RowsOn(listing) > 0 ==> Here() == At(next)
      ensures err == {} && (outcome == PageDone || outcome == PageFull) ==> next == LastListed(listing, offset)
      ensures old(ctx.Live()) && Steady(old(lane.downstream.calls)) ==>
                || err == {StoreFault} || err == {LostLeadership}
                || (next, outcome, err) == Whole(old(lane.downstream.calls), listing, offset)
      ensures StoreFault !in err && LostLeadership !in err ==> !Unsettled()
      ensures next >= offset && (next > offset ==> Committed(old(store.cluster.run), next))
      ensures (old(ctx.Live()) ==> ctx.Live()) && (old(ctx.dead) ==> ctx.dead)
    {
      hide Obedient, Lost, Listed, Labelling, Swept, Renewed, Overruns, Failing, Unanswered, Refused, Listings;
      hide Relay.Valid, Exec, Next, Holds, Top, Relay.Committed, Relay.Steady, Relay.Delivers, Relay.Whole, Ending;
      hide Lane.EndsStuck, Overruled, Relay.StuckOn;
      BatchIsPositive();
      ghost var k := lane.downstream.calls;
      var maxSeq, parked, failed;
      maxSeq, outcome, parked, failed := DeliverPage(ctx, offset, listing);
      ghost var mid := store.cluster.run;
      if old(ctx.Live()) && Steady(k) {
        DeliversWhole(k, listing, offset, maxSeq, outcome, parked, failed);
      }
      EndingIs(listing, outcome, parked, failed);
      next, outcome, err := SettlePage(offset, listing, maxSeq, outcome, parked, failed, old(lane.tracker.calls));
      if next > offset {
        CommittedEarlier(old(store.cluster.run), mid, next);
      }
    }

    /** Commits what a delivered page has earned and, that done, says how the page ended. */
    method SettlePage(offset: nat, listing: Listing, maxSeq: nat, outcome: PageOutcome, parked: bool, failed: bool,
                      ghost heard: seq<Call<nat>>)
      returns (next: nat, ending: PageOutcome, err: set<Fault>)
      requires Valid() && store.journal.Clear() && (parked ==> listing.poison.Some?) && heard <= lane.tracker.calls
      requires Here().Page? && Here().done <= |Here().items| && maxSeq == Top(Here())
      requires maxSeq >= offset && (maxSeq > offset <==> Here().done > 0)
      requires listing.poison.Some? ==> !StuckOn(heard, listing.poison.value)
      modifies store.cluster, store.journal, lane, lane.tracker, lane.clock
      ensures Valid() && old(store.cluster.run) <= store.cluster.run
      ensures Obedient(store.journal.acts) && (Lost(store.journal.acts) <==> LostLeadership in err)
      ensures SamePages(old(store.journal.acts), store.journal.acts) && old(store.journal.acts) <= store.journal.acts
      ensures Overruns(store.journal.acts) <==> old(Overruns(store.journal.acts))
      ensures Accounts(old(store.journal.acts), store.journal.acts, err)
      ensures Refused(store.journal.acts) <==> old(Refused(store.journal.acts))
      ensures heard <= lane.tracker.calls
      ensures if err == {StoreFault} || err == {LostLeadership}
              then next == offset && ending == PageDone && maxSeq > offset
              else (ending, err) == Ending(listing, outcome, parked, failed, batchSize) && next == maxSeq
                   && !Unsettled()
      ensures next > offset ==> Here() == At(next) && Committed(old(store.cluster.run), next)
      ensures var wedged := outcome == PageDone && listing.poison.Some? && !parked;
              listing.poison.Some? ==>
                (StuckOn(heard, listing.poison.value) <==> wedged && err != {StoreFault} && err != {LostLeadership})
      ensures outcome != PageDone || listing.poison.None? || parked ==> (lane.EndsStuck() <==> old(lane.EndsStuck()))
      ensures Undecodable in err ==> lane.EndsStuck()
    {
      hide Obedient, Lost, Listed, Labelling, Swept, Renewed, Overruns, Failing, Unanswered, Refused, Listings;
      hide Relay.Valid, Exec, Next, Top, Relay.Committed, Lane.EndsStuck, Relay.StuckOn;
      ending := PageDone;
      next, err := CommitPage(offset, maxSeq);
      if err == {} {
        ending, err := EndPage(listing, outcome, parked, failed, heard);
      }
    }

    /** A page that is not full ends the drain, and so does a poison row nobody took. */
    method EndPage(listing: Listing, outcome: PageOutcome, parked: bool, failed: bool, ghost heard: seq<Call<nat>>)
      returns (ending: PageOutcome, err: set<Fault>)
      requires Valid() && (parked ==> listing.poison.Some?) && heard <= lane.tracker.calls
      modifies lane, lane.tracker, lane.clock
      ensures Valid() && Here() == old(Here())
      ensures (ending, err) == Ending(listing, outcome, parked, failed, batchSize)
      ensures if outcome == PageDone && listing.poison.Some? && !parked
              then StuckOn(heard, listing.poison.value)
              else lane.tracker.calls == old(lane.tracker.calls) && (lane.EndsStuck() <==> old(lane.EndsStuck()))
      ensures listing.poison.Some? && (outcome != PageDone || parked) ==>
                (StuckOn(heard, listing.poison.value) <==> old(StuckOn(heard, listing.poison.value)))
      ensures old(lane.tracker.calls) <= lane.tracker.calls
      ensures outcome != PageDone ==> (old(lane.EndsStuck()) ==> lane.EndsStuck())
      ensures err != {} ==> lane.EndsStuck()
    {
      hide Lane.Valid, Cluster.Valid, Exec, Next;
      var full := |listing.msgs| == batchSize;
      if outcome != PageDone {
        return outcome, {};
      }
      if listing.poison.Some? && !parked {
        lane.Stuck(listing.poison.value);
        return PageDone, if failed then {Undecodable, ParkFault} else {Undecodable};
      }
      if !full && !parked {
        return PageDone, {};
      }
      return PageFull, {};
    }

    /** One page, and behind a full one the lease: whether to go on from `next`, or why not. */
    method DrainTurn(ctx: Context, offset: nat) returns (more: bool, next: nat, err: set<Fault>)
      requires Valid() && Here() == At(offset) && store.journal.Clear()
      requires Renewed(store.journal.acts) && (Listed(store.journal.acts) ==> JustRenewed(store.journal.acts))
      modifies elector, store, store.cluster, store.journal, lane, lane.downstream, lane.tracker, lane.clock, ctx
      ensures Swept(store.journal.acts) <==> old(Swept(store.journal.acts))
      ensures Overruns(store.journal.acts) <==> old(Overruns(store.journal.acts))
      ensures Accounts(old(store.journal.acts), store.journal.acts, err)
      ensures Valid() && old(store.cluster.run) <= store.cluster.run
      ensures Obedient(store.journal.acts) && (Lost(store.journal.acts) <==> LostLeadership in err)
      ensures Listed(store.journal.acts) && old(store.journal.acts) <= store.journal.acts
      ensures Renewed(store.journal.acts)
      ensures |Listings(store.journal.acts)| == |old(Listings(store.journal.acts))| + 1
      ensures more ==> err == {} && Here() == At(next) && next > offset && JustRenewed(store.journal.acts)
      ensures !more && err == {} ==> (LastIsShort() && Finished()) || lane.EndsStuck() || Overruled()
      ensures old(lane.tracker.calls) <= lane.tracker.calls && TellsTheEnd(old(ctx.dead), ctx.dead, err)
      ensures TellsTheWedge(old(lane.tracker.calls), old(Refused(store.journal.acts)), err)
      ensures more ==>
                !lane.EndsStuck() && !ctx.dead && (Refused(store.journal.acts) <==> old(Refused(store.journal.acts)))
      ensures (old(ctx.Live()) ==> ctx.Live()) && (old(ctx.dead) ==> ctx.dead)
    {
      hide Obedient, Lost, Listed, Labelling, Swept, Renewed, Overruns, Failing, Unanswered, Refused, Listings;
      hide Relay.Valid, Exec, Next, Relay.Committed, Lane.EndsStuck, LastIsShort, Unlisted, Unsettled, Overruled;
      hide Relay.Steady, Relay.ReadAs, Relay.Finished, Relay.Whole, LastListed, Relay.TellsTheWedge, Relay.LastPage;
      var outcome;
      ghost var listing;
      next, outcome, err, listing := DrainPage(ctx, offset);
      more := false;
      if err == {} {
        match outcome {
          case PageCanceled =>
            err := {RunCanceled};
            SameWedge(old(lane.tracker.calls), old(Refused(store.journal.acts)), {}, err);
          case PageStopped =>
          case PageDone =>
          case PageFull =>
            more, err := RenewTurn(ctx);
            NoWedge(old(lane.tracker.calls), old(Refused(store.journal.acts)), err);
        }
      }
    }

    /** The lease behind a full page, unless the context is dead. */
    method RenewTurn(ctx: Context) returns (more: bool, err: set<Fault>)
      requires Valid()
      modifies elector, store, store.cluster, store.journal, ctx
      ensures Valid() && old(store.cluster.run) <= store.cluster.run && Here() == old(Here())
      ensures err in {{}, {RunCanceled}, {LostLeadership}, {LostLeadership, LeaseRenewFailed, StoreFault}}
      ensures (more <==> err == {}) && (more ==> JustRenewed(store.journal.acts) && !ctx.dead)
      ensures RunCanceled in err <==> ctx.dead
      ensures if ctx.dead then store.journal.acts == old(store.journal.acts)
              else store.journal.Took(TryLease(if err == {} then Yes
                                               else if LeaseRenewFailed in err then Failed else No))
      ensures (old(ctx.Live()) ==> ctx.Live()) && (old(ctx.dead) ==> ctx.dead)
    {
      hide Obedient, Lost, Listed, Labelling, Swept, Renewed, Overruns, Failing, Unanswered, Refused, Listings;
      hide Relay.Valid;
      var dead := ctx.Err();
      if dead {
        return false, {RunCanceled};
      }
      err := RenewLease();
      more := err == {};
    }

    /** What was heard before the last turn does not end stuck, so a wedge is that turn's own. */
    lemma WedgedSince(before: seq<Call<nat>>, mid: seq<Call<nat>>)
      requires before <= mid <= lane.tracker.calls
      requires before == mid || (mid != [] ==> !mid[|mid| - 1].StuckAt?)
      ensures Wedged(before) <==> Wedged(mid)
    {
    }

    lemma EndOf(calls: seq<Call<nat>>)
      requires calls == lane.tracker.calls
      ensures lane.EndsStuck() <==> calls != [] && calls[|calls| - 1].StuckAt?
    {
    }

    /** Only these two faults are about a wedge. */
    lemma SameWedge(before: seq<Call<nat>>, refused: bool, err: set<Fault>, other: set<Fault>)
      requires TellsTheWedge(before, refused, err)
      requires (Undecodable in other <==> Undecodable in err) && (ParkFault in other <==> ParkFault in err)
      ensures TellsTheWedge(before, refused, other)
    {
    }

    lemma NoWedge(before: seq<Call<nat>>, refused: bool, err: set<Fault>)
      requires !lane.EndsStuck() && Undecodable !in err && ParkFault !in err
      ensures TellsTheWedge(before, refused, err)
    {
    }

    lemma NotWedged(before: seq<Call<nat>>)
      requires !lane.EndsStuck()
      ensures !Wedged(before)
    {
    }

    /** Pages until one is short, renewing the lease in between. */
    method Drain(ctx: Context, offset: nat) returns (err: set<Fault>)
      requires Valid() && Here() == At(offset) && store.journal.Clear()
      requires Renewed(store.journal.acts) && !Listed(store.journal.acts)
      modifies elector, store, store.cluster, store.journal, lane, lane.downstream, lane.tracker, lane.clock, ctx
      ensures Swept(store.journal.acts) <==> old(Swept(store.journal.acts))
      ensures Overruns(store.journal.acts) <==> old(Overruns(store.journal.acts))
      ensures Accounts(old(store.journal.acts), store.journal.acts, err)
      ensures Valid() && old(store.cluster.run) <= store.cluster.run
      ensures Obedient(store.journal.acts) && (Lost(store.journal.acts) <==> LostLeadership in err)
      ensures Listed(store.journal.acts) && old(store.journal.acts) <= store.journal.acts
      ensures Renewed(store.journal.acts)
      ensures err == {} ==>
                || (LastIsShort() && Finished()) || lane.EndsStuck() || Overruled()
                || |Listings(store.journal.acts)| == |old(Listings(store.journal.acts))| + MAX_PAGES_PER_TICK
      ensures old(lane.tracker.calls) <= lane.tracker.calls && TellsTheEnd(old(ctx.dead), ctx.dead, err)
      ensures TellsTheWedge(old(lane.tracker.calls), old(Refused(store.journal.acts)), err)
      ensures (old(ctx.Live()) ==> ctx.Live()) && (old(ctx.dead) ==> ctx.dead)
    {
      hide Obedient, Lost, Listed, Labelling, Swept, Renewed, Overruns, Failing, Unanswered, Refused, Listings;
      hide Relay.Valid, Exec, Next, Lane.EndsStuck;
      hide LastIsShort, Overruled, Relay.Finished, Relay.Wedged, Relay.LastPage;
      var at := offset;
      for page := 0 to MAX_PAGES_PER_TICK
        invariant Valid() && old(store.cluster.run) <= store.cluster.run
        invariant Here() == At(at) && store.journal.Clear()
        invariant (page > 0 ==> Listed(store.journal.acts)) && old(store.journal.acts) <= store.journal.acts
        invariant Swept(store.journal.acts) <==> old(Swept(store.journal.acts))
        invariant Overruns(store.journal.acts) <==> old(Overruns(store.journal.acts))
        invariant Accounts(old(store.journal.acts), store.journal.acts, {})
        invariant Renewed(store.journal.acts) && (Listed(store.journal.acts) ==> JustRenewed(store.journal.acts))
        invariant |Listings(store.journal.acts)| == |old(Listings(store.journal.acts))| + page
        invariant (old(ctx.Live()) ==> ctx.Live()) && (old(ctx.dead) ==> ctx.dead && page == 0)
        invariant old(lane.tracker.calls) <= lane.tracker.calls
        invariant Refused(store.journal.acts) <==> old(Refused(store.journal.acts))
        invariant if page == 0 then lane.tracker.calls == old(lane.tracker.calls) else !lane.EndsStuck() && !ctx.dead
      {
        var more;
        ghost var heard := lane.tracker.calls;
        EndOf(heard);
        more, at, err := DrainTurn(ctx, at);
        if !more {
          WedgedSince(old(lane.tracker.calls), heard);
          return;
        }
      }
      NotWedged(old(lane.tracker.calls));
      return {};
    }

    /** The last act was a sweep that found less than a full batch. */
    ghost predicate EndsShort(acts: seq<Act>) {
      && acts != [] && acts[|acts| - 1].SweepRows?
      && acts[|acts| - 1].rows.Ok? && acts[|acts| - 1].rows.value < sweepBatch
    }

    /** Deletes what every group has committed past, on cadence once it has caught up. */
    method MaybeSweep(ctx: Context) returns (err: set<Fault>)
      requires Valid() && store.journal.Clear()
      modifies this`lastSweep, store, store.cluster, store.journal, lane.clock, ctx
      ensures Valid() && old(store.cluster.run) <= store.cluster.run && Here() == old(Here())
      ensures store.journal.Clear() && old(store.journal.acts) <= store.journal.acts
      ensures old(Renewed(store.journal.acts)) ==> Renewed(store.journal.acts)
      ensures Overruns(store.journal.acts) <==> old(Overruns(store.journal.acts))
      ensures Refused(store.journal.acts) <==> old(Refused(store.journal.acts))
      ensures LastPage() == old(LastPage())
      ensures Accounts(old(store.journal.acts), store.journal.acts, err)
      ensures sweeps && old(lastSweep).None? ==> Swept(store.journal.acts)
      ensures store.journal.acts != old(store.journal.acts) <==>
                sweeps && (old(lastSweep).None? || lane.clock.time - old(lastSweep).value >= sweepInterval)
      ensures err in {{}, {StoreFault}, {RunCanceled}} && (RunCanceled in err ==> ctx.dead)
      ensures if store.journal.acts != old(store.journal.acts) && EndsShort(store.journal.acts)
              then err == {} && lastSweep == Some(lane.clock.time)
              else lastSweep == old(lastSweep)
      ensures lastSweep != old(lastSweep) ==> store.clockReads > 0 && store.NothingLeft()
    {
      hide Obedient, Lost, Listed, Labelling, Swept, Renewed, Overruns, Failing, Unanswered, Refused, Listings;
      hide Lane.Valid, Cluster.Valid, Exec, Next;
      if !sweeps {
        return {};
      }
      var now := lane.clock.Now();
      if lastSweep.Some? && now - lastSweep.value < sweepInterval {
        return {};
      }
      var caughtUp;
      caughtUp, err := SweepPages(ctx);
      if caughtUp {
        var done := lane.clock.Now();
        lastSweep := Some(done);
      }
    }

    /** Full batches until one is short. */
    method SweepPages(ctx: Context) returns (caughtUp: bool, err: set<Fault>)
      requires Valid() && store.journal.Clear()
      modifies store, store.cluster, store.journal, ctx
      ensures Valid() && old(store.cluster.run) <= store.cluster.run && Here() == old(Here())
      ensures store.journal.Clear() && old(store.journal.acts) <= store.journal.acts
      ensures Swept(store.journal.acts) && |store.journal.acts| > |old(store.journal.acts)|
      ensures old(Renewed(store.journal.acts)) ==> Renewed(store.journal.acts)
      ensures Overruns(store.journal.acts) <==> old(Overruns(store.journal.acts))
      ensures Refused(store.journal.acts) <==> old(Refused(store.journal.acts))
      ensures Listings(store.journal.acts) == old(Listings(store.journal.acts))
      ensures Accounts(old(store.journal.acts), store.journal.acts, err)
      ensures caughtUp <==> EndsShort(store.journal.acts)
      ensures (caughtUp ==> err == {}) && err in {{}, {StoreFault}, {RunCanceled}} && (RunCanceled in err ==> ctx.dead)
      ensures caughtUp ==> store.clockReads > 0 && store.NothingLeft()
    {
      hide Relay.Valid, Exec, Next, NoneRipe;
      hide Obedient, Lost, Listed, Labelling, Swept, Renewed, Overruns, Failing, Unanswered, Refused, Listings;
      for page := 0 to MAX_PAGES_PER_TICK
        invariant Valid() && old(store.cluster.run) <= store.cluster.run && Here() == old(Here())
        invariant store.journal.Clear() && old(store.journal.acts) <= store.journal.acts
        invariant old(Renewed(store.journal.acts)) ==> Renewed(store.journal.acts)
        invariant Overruns(store.journal.acts) <==> old(Overruns(store.journal.acts))
        invariant Accounts(old(store.journal.acts), store.journal.acts, {})
        invariant Refused(store.journal.acts) <==> old(Refused(store.journal.acts))
        invariant Listings(store.journal.acts) == old(Listings(store.journal.acts))
        invariant page > 0 ==>
                    && Swept(store.journal.acts) && |store.journal.acts| > |old(store.journal.acts)|
                    && !EndsShort(store.journal.acts)
      {
        var n := SweepOnce();
        if n.Err? {
          return false, {StoreFault};
        }
        if n.value < sweepBatch {
          return true, {};
        }
        var dead := ctx.Err();
        if dead {
          return false, {RunCanceled};
        }
      }
      return false, {};
    }

    /** One batch. */
    method SweepOnce() returns (n: Result<nat>)
      requires Valid()
      modifies store, store.cluster, store.journal
      ensures Valid() && old(store.cluster.run) <= store.cluster.run && Here() == old(Here())
      ensures store.journal.Took(SweepRows(n))
      ensures n.Ok? && n.value < sweepBatch ==> store.clockReads > 0 && store.NothingLeft()
    {
      hide Lane.Valid, Cluster.Valid, Exec, Next, NoneRipe;
      n := store.SweepMessages(sweepBatch);
    }

    // ----- the pass

    /** The drain, if the pass has its start and still leads. */
    method DrainFrom(ctx: Context, offset: nat, go: bool) returns (err: set<Fault>)
      requires Valid() && (go ==> Here() == At(offset) && store.journal.Clear()) && Obedient(store.journal.acts)
      requires Renewed(store.journal.acts) && !Listed(store.journal.acts)
      requires Listings(store.journal.acts) == [] && !Refused(store.journal.acts)
      modifies elector, store, store.cluster, store.journal, lane, lane.downstream, lane.tracker, lane.clock, ctx
      ensures old(lane.tracker.calls) <= lane.tracker.calls
      ensures TellsTheWedge(old(lane.tracker.calls), false, err) && TellsTheEnd(old(ctx.dead), ctx.dead, err)
      ensures Swept(store.journal.acts) <==> old(Swept(store.journal.acts))
      ensures Overruns(store.journal.acts) <==> old(Overruns(store.journal.acts))
      ensures Accounts(old(store.journal.acts), store.journal.acts, err)
      ensures Valid() && old(store.cluster.run) <= store.cluster.run
      ensures Obedient(store.journal.acts)
      ensures Lost(store.journal.acts) <==> old(Lost(store.journal.acts)) || LostLeadership in err
      ensures old(store.journal.acts) <= store.journal.acts && Renewed(store.journal.acts)
      ensures if go then Listed(store.journal.acts) else store.journal.acts == old(store.journal.acts) && err == {}
      ensures RunCanceled in err ==> ctx.dead
      ensures (old(ctx.Live()) ==> ctx.Live()) && (old(ctx.dead) ==> ctx.dead)
    {
      hide Relay.Valid, Exec, Next, Relay.TellsTheWedge, Relay.LastPage;
      hide Obedient, Lost, Listed, Labelling, Swept, Renewed, Overruns, Failing, Unanswered, Refused, Listings;
      err := {};
      if go {
        err := Drain(ctx, offset);
      } else {
        NoPage();
        NothingRead(lane.tracker.calls, false, {});
      }
    }

    lemma AccountsOn(a: seq<Act>, b: seq<Act>, c: seq<Act>, err: set<Fault>, more: set<Fault>)
      requires Accounts(a, b, err) && Accounts(b, c, more)
      ensures Accounts(a, c, err + more)
    {
    }

    lemma NothingRejected(acts: seq<Act>)
      requires |acts| <= 2
      ensures !Rejected(acts, 1)
    {
    }

    /** What the prime did stays at the head of a pass that went on from it. */
    lemma StartStays(before: seq<Act>, after: seq<Act>, n: nat)
      requires before <= after && n < |before| && (before[n] == ReadWatermark(Ok(false)) ==> n + 1 < |before|)
      ensures HasStart(after, n) <==> HasStart(before, n)
      ensures Rejected(after, n) <==> Rejected(before, n)
    {
    }

    /** Prime and sequence: `go` where there is a start and the sequencer has lost no lease. */
    method PrimeAndSequence(ctx: Context) returns (offset: nat, go: bool, err: set<Fault>)
      requires Valid() && Here().Idle? && store.journal.Clear()
      modifies elector, store, store.cluster, store.journal, ctx
      ensures Valid() && old(store.cluster.run) <= store.cluster.run
      ensures Obedient(store.journal.acts) && (Lost(store.journal.acts) <==> LostLeadership in err)
      ensures go ==> Here() == At(offset) && !Lost(store.journal.acts)
      ensures HasStart(store.journal.acts, |old(store.journal.acts)|) ==> go || Lost(store.journal.acts)
      ensures SamePages(old(store.journal.acts), store.journal.acts) && old(store.journal.acts) <= store.journal.acts
      ensures Refused(store.journal.acts) <==> old(Refused(store.journal.acts))
      ensures Begins(store.journal.acts, |old(store.journal.acts)|)
      ensures Overruns(store.journal.acts) <==>
                || old(Overruns(store.journal.acts))
                || (sequences && Rejected(store.journal.acts, |old(store.journal.acts)|))
      ensures Accounts(old(store.journal.acts), store.journal.acts, err)
      ensures sequences ==> Labelling(store.journal.acts)
      ensures Undecodable !in err && ParkFault !in err && (RunCanceled in err ==> ctx.dead)
      ensures (old(ctx.Live()) ==> ctx.Live()) && (old(ctx.dead) ==> ctx.dead)
    {
      hide Relay.Valid, Exec, Next, Relay.Committed, Relay.Paced;
      hide Obedient, Lost, Listed, Labelling, Swept, Renewed, Overruns, Failing, Unanswered, Refused, Listings;
      ghost var n := |store.journal.acts|;
      var primeErr;
      offset, primeErr := PrimeOffset();
      ghost var primed := store.journal.acts;
      var sequenceErr := Sequence(ctx);
      StartStays(primed, store.journal.acts, n);
      go := primeErr == {} && LostLeadership !in sequenceErr;
      err := primeErr + sequenceErr;
    }

    /** Prime, sequence, drain: the faults of all three. */
    method Phases(ctx: Context) returns (err: set<Fault>)
      requires Valid() && Here().Idle? && store.journal.Clear()
      requires Renewed(store.journal.acts) && !Listed(store.journal.acts)
      requires Listings(store.journal.acts) == [] && !Refused(store.journal.acts)
      modifies elector, store, store.cluster, store.journal, lane, lane.downstream, lane.tracker, lane.clock, ctx
      ensures old(lane.tracker.calls) <= lane.tracker.calls
      ensures TellsTheWedge(old(lane.tracker.calls), false, err) && TellsTheEnd(old(ctx.dead), ctx.dead, err)
      ensures Swept(store.journal.acts) <==> old(Swept(store.journal.acts))
      ensures Overruns(store.journal.acts) <==>
                || old(Overruns(store.journal.acts))
                || (sequences && Rejected(store.journal.acts, |old(store.journal.acts)|))
      ensures Accounts(old(store.journal.acts), store.journal.acts, err)
      ensures Valid() && Here().Idle? && old(store.cluster.run) <= store.cluster.run
      ensures Obedient(store.journal.acts) && (Lost(store.journal.acts) <==> LostLeadership in err)
      ensures old(store.journal.acts) <= store.journal.acts && Renewed(store.journal.acts)
      ensures HasStart(store.journal.acts, |old(store.journal.acts)|) ==>
                Listed(store.journal.acts) || Lost(store.journal.acts)
      ensures Begins(store.journal.acts, |old(store.journal.acts)|)
      ensures sequences ==> Labelling(store.journal.acts)
      ensures (old(ctx.Live()) ==> ctx.Live()) && (old(ctx.dead) ==> ctx.dead)
    {
      hide Relay.Valid, Exec, Next, Relay.TellsTheWedge, Relay.TellsTheEnd, Relay.LastPage, Relay.Accounts;
      hide Obedient, Lost, Listed, Labelling, Swept, Renewed, Overruns, Failing, Unanswered, Refused, Listings;
      ghost var n, heard, was := |store.journal.acts|, lane.tracker.calls, ctx.dead;
      var offset, go, early := PrimeAndSequence(ctx);
      ghost var mid, dead := store.journal.acts, ctx.dead;
      var drainErr := DrainFrom(ctx, offset, go);
      DoneStays(mid, store.journal.acts);
      StartStays(mid, store.journal.acts, n);
      EndPass();
      AccountsOn(old(store.journal.acts), mid, store.journal.acts, early, drainErr);
      ToldByAll(heard, was, dead, ctx.dead, early, drainErr);
      err := early + drainErr;
    }

    /** The drain's faults tell of wedge and end for the whole pass. */
    lemma ToldByAll(before: seq<Call<nat>>, was: bool, since: bool, dead: bool, early: set<Fault>, drain: set<Fault>)
      requires TellsTheWedge(before, false, drain) && TellsTheEnd(since, dead, drain) && (was ==> since)
      requires Undecodable !in early && ParkFault !in early && (RunCanceled in early ==> dead)
      ensures TellsTheWedge(before, false, early + drain)
      ensures TellsTheEnd(was, dead, early + drain)
    {
    }

    lemma NoPage()
      requires Listings(store.journal.acts) == []
      ensures LastPage().None?
      ensures forall was: bool, dead: bool :: TellsTheEnd(was, dead, {})
    {
    }

    /** The pass is over; its locals are gone. */
    method EndPass()
      requires Valid()
      modifies store.cluster
      ensures Valid() && Here().Idle? && old(store.cluster.run) <= store.cluster.run
    {
      store.cluster.EndPass();
    }

    /** The watermark is read at `n`, and a missing row has an act behind it. */
    ghost predicate Begins(acts: seq<Act>, n: nat) {
      && n < |acts| && acts[n].ReadWatermark?
      && (acts[n] == ReadWatermark(Ok(false)) ==> n + 1 < |acts|)
    }

    /** The pass of an instance that leads: the phases, and the sweep unless the lease is lost or the context dead. */
    method Lead(ctx: Context) returns (err: set<Fault>, ghost faults: set<Fault>)
      requires Valid() && Here().Idle? && store.journal.Clear() && store.journal.acts != []
      requires Renewed(store.journal.acts) && !Listed(store.journal.acts) && !Swept(store.journal.acts)
      requires Listings(store.journal.acts) == [] && !Refused(store.journal.acts) && !Overruns(store.journal.acts)
      requires !Failing(store.journal.acts) && !Unanswered(store.journal.acts)
      modifies this, elector, store, store.cluster, store.journal, lane, lane.downstream, lane.tracker, lane.clock, ctx
      ensures Valid() && Here().Idle? && old(store.cluster.run) <= store.cluster.run
      ensures old(store.journal.acts) <= store.journal.acts
      ensures Obedient(store.journal.acts) && Renewed(store.journal.acts)
      ensures Overruns(store.journal.acts) <==> sequences && Rejected(store.journal.acts, |old(store.journal.acts)|)
      ensures old(ctx.dead) ==> !Swept(store.journal.acts)
      ensures Lost(store.journal.acts) <==> LostLeadership in faults
      ensures Unanswered(store.journal.acts) <==> LeaseRenewFailed in faults
      ensures if LostLeadership in faults then err == if LeaseRenewFailed in faults then faults else {}
              else faults <= err && (Failing(store.journal.acts) <==> StoreFault in err)
      ensures TellsTheWedge(old(lane.tracker.calls), false, faults) && TellsTheEnd(old(ctx.dead), ctx.dead, faults)
      ensures LostLeadership !in faults ==> err - {StoreFault, RunCanceled} == faults - {StoreFault, RunCanceled}
      ensures RunCanceled in err ==> ctx.dead
      ensures Begins(store.journal.acts, |old(store.journal.acts)|)
      ensures sequences ==> Labelling(store.journal.acts)
      ensures HasStart(store.journal.acts, |old(store.journal.acts)|) ==>
                Listed(store.journal.acts) || Lost(store.journal.acts)
      ensures LostLeadership !in faults && old(ctx.Live()) && sweeps && old(lastSweep).None? ==>
                Swept(store.journal.acts)
    {
      hide Relay.Valid, Relay.HasStart, Relay.Rejected, Exec, Next, Relay.LastPage, Relay.StuckOn;
      hide Obedient, Lost, Listed, Labelling, Swept, Renewed, Overruns, Failing, Unanswered, Refused, Listings;
      ghost var n := |store.journal.acts|;
      err := Phases(ctx);
      faults := err;
      if LostLeadership in err {
        return if LeaseRenewFailed in err then err else {}, faults;
      }
      var dead := ctx.Err();
      if dead {
        return err, faults;
      }
      ghost var drained := store.journal.acts;
      var sweepErr := MaybeSweep(ctx);
      DoneStays(drained, store.journal.acts);
      StartStays(drained, store.journal.acts, n);
      err := err + sweepErr;
    }

    /**
      One tick. After a lost or unanswerable lease, or a rejected commit, the rest of the pass
      delivers nothing, commits nothing and sweeps nothing; with a start and a lease it drains,
      whatever else the sequencer met, and no fault but a lost lease keeps the sweep from running.
      The one loss behind which rows are still labelled is a rejected registration. `faults` is
      what the phases reported.
     */
    method RunOnce(ctx: Context) returns (err: set<Fault>, ghost faults: set<Fault>)
      requires Valid() && Here().Idle?
      modifies this, elector, store, store.cluster, store.journal, lane, lane.downstream, lane.tracker, lane.clock, ctx
      ensures Valid() && Here().Idle? && old(store.cluster.run) <= store.cluster.run
      ensures store.journal.acts != [] && store.journal.acts[0].TryLease?
      ensures Obedient(store.journal.acts) && Renewed(store.journal.acts)
      ensures Overruns(store.journal.acts) <==> sequences && Rejected(store.journal.acts, 1)
      ensures old(ctx.dead) ==> !Swept(store.journal.acts)
      ensures store.journal.acts[0] != TryLease(Yes) ==>
                && |store.journal.acts| == 1 && faults == {}
                && err == if store.journal.acts[0] == TryLease(No) then {} else {StoreFault}
      ensures store.journal.acts[0] == TryLease(Yes) ==>
                && (Lost(store.journal.acts) <==> LostLeadership in faults)
                && (Unanswered(store.journal.acts) <==> LeaseRenewFailed in faults)
                && (if LostLeadership in faults then err == if LeaseRenewFailed in faults then faults else {}
                    else faults <= err && (Failing(store.journal.acts) <==> StoreFault in err))
                && TellsTheWedge(old(lane.tracker.calls), false, faults) && TellsTheEnd(old(ctx.dead), ctx.dead, faults)
                && (LostLeadership !in faults ==> err - {StoreFault, RunCanceled} == faults - {StoreFault, RunCanceled})
                && (RunCanceled in err ==> ctx.dead)
                && Begins(store.journal.acts, 1)
                && (sequences ==> Labelling(store.journal.acts))
                && (HasStart(store.journal.acts, 1) ==> Listed(store.journal.acts) || Lost(store.journal.acts))
                && (LostLeadership !in faults && old(ctx.Live()) && sweeps && old(lastSweep).None? ==>
                      Swept(store.journal.acts))
    {
      hide Relay.Valid, Relay.HasStart, Relay.Rejected, Exec, Next, Relay.TellsTheWedge, Relay.TellsTheEnd;
      hide Obedient, Lost, Listed, Labelling, Swept, Renewed, Overruns, Failing, Unanswered, Refused, Listings;
      store.journal.Open();
      faults := {};
      var held := TryLead();
      NothingRejected(store.journal.acts);
      if held.Err? {
        return {StoreFault}, faults;
      }
      if !held.value {
        return {}, faults;
      }
      err, faults := Lead(ctx);
    }
  }

  // ----- the promises, as the relay's own database and downstream show them

  /** The downstream acknowledged message `n`, or the handler confirmed that it took it. */
  predicate Proved(log: seq<Event<nat>>, n: nat) {
    Acked(n) in log || ParkConfirmed(n) in log
  }

  /** An instance of the group settled row `n`, and if it was this one its downstream has the proof. */
  ghost predicate Vouched(relay: Relay, g: nat, n: nat)
    reads relay, relay.store, relay.store.cluster, relay.lane, relay.lane.downstream
  {
    var c := relay.store.cluster;
    exists k :: && 0 <= k < |c.run| && Settles(c.site, c.run[k], g, n)
                && (c.run[k].who == c.me ==> Proved(relay.lane.downstream.log, n))
  }

  /** What this instance settled, its downstream acknowledged or its handler confirmed parked. */
  lemma SettledByTheDownstream(relay: Relay, k: nat)
    requires relay.Valid() && k < |relay.store.cluster.run|
    requires relay.store.cluster.run[k].Settle? && relay.store.cluster.run[k].who == relay.store.cluster.me
    ensures Proved(relay.lane.downstream.log, relay.store.cluster.run[k].item)
  {
    var c := relay.store.cluster;
    OwnHolds(c.run, c.me, k);
    var j :| 0 <= j < |c.delivered| && MirroredAll(c.delivered, c.me)[j] == c.run[k];
    assert c.delivered[j] in relay.lane.downstream.log;
  }

  lemma ConfirmedIsVouched(relay: Relay, g: nat, n: nat)
    requires relay.Valid() && (g, n) in relay.store.cluster.sys.confirmed
    ensures Vouched(relay, g, n)
  {
    var c := relay.store.cluster;
    ConfirmedWasSettled(c.site, c.run, g, n);
    var k :| 0 <= k < |c.run| && Settles(c.site, c.run[k], g, n);
    if c.run[k].who == c.me {
      SettledByTheDownstream(relay, k);
    }
  }

  /**
    No loss: each owed row at or below a watermark was settled by an instance of its group, and
    if by this one, then its downstream acknowledged the message or its handler took it.
   */
  lemma DatabasePassesOnlyDisposedRows(relay: Relay, g: nat, n: nat)
    requires relay.Valid()
    requires var s := relay.store.cluster.sys; g in s.db.offsets && Owed(s, g, n) && n <= s.db.offsets[g]
    ensures Vouched(relay, g, n)
  {
    WatermarkPassesOnlyDisposedRows(relay.store.cluster.site, relay.store.cluster.run, g, n);
    ConfirmedIsVouched(relay, g, n);
  }

  /**
    Order: with serial sends, whatever reached this relay's downstream, a failed send that
    arrived included, came after every owed row before it, and each of those was settled by an
    instance of the group.
   */
  lemma OwnDeliveriesAscend(relay: Relay, j: nat, m: nat)
    requires relay.Valid() && Serial(relay.store.cluster.site, relay.store.cluster.Group())
    requires j < |relay.lane.downstream.log| && m < relay.lane.downstream.log[j].pos
    requires Owed(relay.store.cluster.sys, relay.store.cluster.Group(), m)
    ensures Vouched(relay, relay.store.cluster.Group(), m)
  {
    var c := relay.store.cluster;
    assert (c.Group(), c.delivered[j].pos) in c.sys.touched;
    DeliveriesAreDownwardClosed(c.site, c.run, c.Group(), m, relay.lane.downstream.log[j].pos);
    ConfirmedIsVouched(relay, c.Group(), m);
  }

  // ----- what one send, or one batch, leaves behind

  /** Everything one send leaves downstream is a run of protocol steps of this page. */
  lemma SendFits(l: Local, batching: bool, hooks: Hooks, v: Verdict, d: Disposition, n: nat)
    requires l.Page? && l.done < l.decoded <= |l.items| && n == l.items[l.done]
    requires hooks.Validated() && (d == Sent <==> v == Accepts) && (d == Parked ==> hooks.poison)
    ensures var events := SendEvents(v, n) + Parking(hooks, d, n);
            && Fits(l, batching, events)
            && Absorb(l, events) == l.(done := l.done + if d == Sent || d == Parked then 1 else 0)
  {
    var tail := Parking(hooks, d, n);
    var after := l.(done := l.done + 1);
    assert l.items[l.done..l.decoded][0] == n;
    TailFits(l, batching, hooks, l.items[l.done..l.decoded], d);
    match v
    case Accepts =>
      var events := SendEvents(v, n) + tail;
      assert events == [Reached(n), Acked(n)];
      assert events[1..] == [Acked(n)] && events[1..][1..] == [];
      assert Absorb(after, []) == after;
    case Refuses(_, arrived) =>
      assert [] + tail == tail;
      assert ([Reached(n)] + tail)[1..] == tail;
  }

  /** The protocol's page: the messages, and the poison row right behind them. */
  lemma PageOfListing(page: Local, offset: nat, listing: Listing)
    requires Holds(page, offset, listing)
    ensures page.Page? && page.offset == offset && page.done == 0
    ensures page.decoded == |listing.msgs| <= |page.items| && page.items[..|listing.msgs|] == listing.msgs
    ensures if listing.poison.Some?
            then |page.items| == page.decoded + 1 && page.items[page.decoded] == listing.poison.value
            else |page.items| == page.decoded
    ensures listing.poison.Some? ==> page.items == listing.msgs + [listing.poison.value]
  {
  }

  /** Validated hooks park nothing without a handler, and a refused message is never sent. */
  lemma JudgeOfRefusal(hooks: Hooks)
    requires hooks.Validated()
    ensures forall v: Verdict, dead, parked :: v.Refuses? ==>
              var d := Judge(hooks, v, dead, parked);
              d != Sent && (d == Parked ==> hooks.poison) && (d == Canceled ==> dead)
  {
  }

  /** The row behind the messages is none of them. */
  lemma PoisonIsNoMessage(cluster: Cluster, page: Local, listing: Listing)
    requires cluster.Valid() && cluster.Here().Page? && page.Page? && listing.poison.Some?
    requires cluster.Here() == page.(done := cluster.Here().done)
    requires page.items == listing.msgs + [listing.poison.value]
    ensures listing.poison.value !in listing.msgs
  {
    PageAscends(cluster, page);
    var items := page.items;
    assert items[|items| - 1] == listing.poison.value;
    assert forall k :: 0 <= k < |listing.msgs| ==> items[k] == listing.msgs[k];
  }

  /** A page's seqs lie above its offset, in order. */
  lemma PageAscends(cluster: Cluster, page: Local)
    requires cluster.Valid() && cluster.Here().Page? && page.Page?
    requires cluster.Here() == page.(done := cluster.Here().done)
    ensures var p := cluster.Here();
            && p.done <= |p.items| && (p.done > 0 <==> Top(p) > p.offset)
            && (forall j, k :: 0 <= j < k < |p.items| ==> p.items[j] < p.items[k])
  {
    EveryRunKeeps(cluster.site, cluster.run);
    assert LocalHolds(cluster.site, cluster.sys, cluster.me);
  }
}
