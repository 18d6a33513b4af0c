/** The shared per-message delivery policy, and the surroundings it calls. */
module Lanes {
  import opened Prelude
  import opened StuckLanes
  import opened Journals

  // ----- the surroundings

  /** A run context. It can die at any moment and stays dead; a lasting one never dies. */
  class Context {
    const lasting: bool
    const fuse: nat -> bool
    var looks: nat
    var dead: bool

    constructor (lasting: bool, fuse: nat -> bool)
      ensures this.lasting == lasting && !dead
    {
      this.lasting, this.fuse := lasting, fuse;
      looks, dead := 0, false;
    }

    ghost predicate Live() reads this { lasting && !dead }

    method Err() returns (e: bool)
      modifies this
      ensures e == dead && (old(dead) ==> dead)
      ensures old(Live()) ==> !dead
    {
      dead := dead || (!lasting && fuse(looks));
      looks := looks + 1;
      e := dead;
    }
  }

  class Clock {
    const gap: nat -> nat
    var reads_: nat
    var time: int

    constructor (gap: nat -> nat, start: int) {
      this.gap := gap;
      reads_, time := 0, start;
    }

    method Now() returns (now: int)
      modifies this
      ensures old(time) <= now == time
    {
      time := time + gap(reads_);
      reads_ := reads_ + 1;
      now := time;
    }
  }

  /** A send failure; `unsendable` is the transports' own marker. */
  datatype SendError = SendError(unsendable: bool, code: nat)

  /** What one send meets. A refused message may have arrived all the same. */
  datatype Verdict = Accepts | Refuses(err: SendError, arrived: bool)

  datatype Event<P> = Reached(pos: P) | Acked(pos: P) | ParkConfirmed(pos: P)

  /** The transport and the poison handler, and what happened there. */
  class Downstream<P(==,!new)> {
    const verdict: (nat, P) -> Verdict
    const parks: (nat, P) -> bool
    const abiding: bool                               // SendBatch counts only what the broker took, without a gap
    const overrules: nat -> Option<SendError>         // ... and what it reports on top of a complete batch
    const rogue: nat -> (int, Option<SendError>)      // what it answers when it does not
    const journal: Journal
    var calls: nat
    var log: seq<Event<P>>

    constructor (verdict: (nat, P) -> Verdict, parks: (nat, P) -> bool, abiding: bool,
                 overrules: nat -> Option<SendError>, rogue: nat -> (int, Option<SendError>), journal: Journal)
      ensures this.verdict == verdict && this.abiding == abiding && calls == 0 && log == []
      ensures this.journal == journal
    {
      this.journal := journal;
      this.verdict, this.parks, this.abiding, this.rogue := verdict, parks, abiding, rogue;
      this.overrules := overrules;
      calls, log := 0, [];
    }

    method Send(pos: P) returns (err: Option<SendError>)
      modifies this, journal
      ensures journal.Took(Deliver)
      ensures calls == old(calls) + 1
      ensures err == ErrorOf(verdict(old(calls), pos))
      ensures log == old(log) + SendEvents(verdict(old(calls), pos), pos)
    {
      err := ErrorOf(verdict(calls, pos));
      log := log + SendEvents(verdict(calls, pos), pos);
      calls := calls + 1;
      journal.Note(Deliver);
    }

    /** Publish everything, then collect acknowledgements up to the first that is missing. */
    method SendBatch(ps: seq<P>) returns (n: int, err: Option<SendError>)
      modifies this, journal
      ensures journal.Took(Deliver)
      ensures calls == old(calls) + 1
      ensures abiding ==>
                && n == AckedPrefix(verdict, old(calls), ps)
                && err == (if n < |ps| then ErrorOf(verdict(old(calls), ps[n])) else overrules(old(calls)))
                && log == old(log) + Wave(verdict, old(calls), ps) + Acks(ps[..n])
    {
      var wave := Wave(verdict, calls, ps);
      var k := AckedPrefix(verdict, calls, ps);
      if abiding {
        n, err := k, if k < |ps| then ErrorOf(verdict(calls, ps[k])) else overrules(calls);
      } else {
        n, err := rogue(calls).0, rogue(calls).1;
      }
      log := log + wave + Acks(ps[..k]);
      calls := calls + 1;
      journal.Note(Deliver);
    }

    method Park(pos: P) returns (ok: bool)
      modifies this, journal
      ensures journal.Took(HandOver(ok))
      ensures calls == old(calls) + 1 && ok == parks(old(calls), pos)
      ensures log == old(log) + if ok then [ParkConfirmed(pos)] else []
    {
      ok := parks(calls, pos);
      if ok {
        log := log + [ParkConfirmed(pos)];
      }
      calls := calls + 1;
      journal.Note(HandOver(ok));
    }
  }

  function ErrorOf(v: Verdict): Option<SendError> {
    if v.Refuses? then Some(v.err) else None
  }

  function SendEvents<P>(v: Verdict, pos: P): seq<Event<P>> {
    match v
    case Accepts => [Reached(pos), Acked(pos)]
    case Refuses(_, arrived) => if arrived then [Reached(pos)] else []
  }

  /** How many of the messages from the first on are accepted without a gap. */
  function AckedPrefix<P>(verdict: (nat, P) -> Verdict, call: nat, ps: seq<P>): (n: nat)
    ensures n <= |ps|
    ensures forall k :: 0 <= k < n ==> verdict(call, ps[k]) == Accepts
    ensures n < |ps| ==> verdict(call, ps[n]).Refuses?
  {
    if ps == [] || verdict(call, ps[0]).Refuses? then 0 else 1 + AckedPrefix(verdict, call, ps[1..])
  }

  /** Every message that arrives when all are published before any confirm is awaited. */
  function Wave<P>(verdict: (nat, P) -> Verdict, call: nat, ps: seq<P>): (w: seq<Event<P>>)
    ensures forall k :: 0 <= k < |w| ==> w[k].Reached? && w[k].pos in ps
  {
    if ps == [] then []
    else
      var v := verdict(call, ps[0]);
      (if v.Accepts? || v.arrived then [Reached(ps[0])] else []) + Wave(verdict, call, ps[1..])
  }

  function Acks<P>(ps: seq<P>): (a: seq<Event<P>>)
    ensures |a| == |ps| && forall k :: 0 <= k < |a| ==> a[k] == Acked(ps[k])
  {
    seq(|ps|, k requires 0 <= k < |ps| => Acked(ps[k]))
  }

  function Progresses<P>(ps: seq<P>): seq<Call<P>> {
    seq(|ps|, k requires 0 <= k < |ps| => ProgressAt(ps[k]))
  }

  // ----- the policy

  datatype Disposition = Sent | Parked | Stopped | Canceled

  /** The two hooks that decide what may be parked. */
  datatype Hooks = Hooks(poison: bool, unsendable: Option<SendError -> bool>) {
    /** A classifier without a handler would have nowhere to park. */
    predicate Validated() {
      unsendable.Some? ==> poison
    }

    predicate Permanent(err: SendError) {
      (poison && err.unsendable) || (unsendable.Some? && unsendable.value(err))
    }
  }

  /** What becomes of a message: `parked` is what the handler answers if it is asked. */
  function Judge(hooks: Hooks, v: Verdict, dead: bool, parked: bool): Disposition {
    match v
    case Accepts => Sent
    case Refuses(err, _) =>
      if dead then Canceled
      else if hooks.Permanent(err) && (hooks.poison ==> parked) then Parked
      else Stopped
  }

  /**
    The policy's whole table. A refused message is permanent when its error carries the transports' own
    marker and there is a handler, or when the classifier claims the error; then it is parked, unless a
    handler declines it. Everything else stops, and a dead context comes before all of it.
   */
  lemma PolicyTable(hooks: Hooks, err: SendError, arrived: bool, dead: bool, parked: bool)
    ensures Judge(hooks, Accepts, dead, parked) == Sent
    ensures dead ==> Judge(hooks, Refuses(err, arrived), dead, parked) == Canceled
    ensures !dead && hooks.poison && (err.unsendable || (hooks.unsendable.Some? && hooks.unsendable.value(err))) ==>
              Judge(hooks, Refuses(err, arrived), dead, parked) == if parked then Parked else Stopped
    ensures !dead && !hooks.poison && hooks.unsendable.Some? && hooks.unsendable.value(err) ==>
              Judge(hooks, Refuses(err, arrived), dead, parked) == Parked
    ensures !dead && (hooks.unsendable.Some? ==> !hooks.unsendable.value(err)) && !(hooks.poison && err.unsendable) ==>
              Judge(hooks, Refuses(err, arrived), dead, parked) == Stopped
  {
  }

  class Lane<P(==,!new)> {
    const downstream: Downstream<P>
    const tracker: StuckTracker<P>
    const clock: Clock
    const hooks: Hooks
    const batching: bool                  // the sender has the batch capability
    const identified: Option<P -> bool>
    ghost const identifies: P -> bool
    ghost var alarms: seq<P>              // StuckLane reports

    ghost predicate Valid()
      reads this, tracker
    {
      && tracker.Valid()
      && tracker.identifies == identifies
      && (forall p: P :: identifies(p) == Identifies(p))
    }

    constructor (downstream: Downstream<P>, tracker: StuckTracker<P>, clock: Clock, hooks: Hooks,
                 batching: bool, identified: Option<P -> bool>)
      requires tracker.Valid()
      requires forall p: P :: tracker.identifies(p) == if identified.Some? then identified.value(p) else true
      ensures Valid()
      ensures this.downstream == downstream && this.tracker == tracker && this.clock == clock
      ensures this.hooks == hooks && this.batching == batching && this.identified == identified
    {
      this.downstream, this.tracker, this.clock := downstream, tracker, clock;
      this.hooks, this.batching, this.identified := hooks, batching, identified;
      this.identifies := tracker.identifies;
      alarms := [];
    }

    predicate Identifies(p: P) {
      if identified.Some? then identified.value(p) else true
    }

    /** The latest the tracker heard is that the lane is stuck. */
    ghost predicate EndsStuck()
      reads tracker
    {
      tracker.calls != [] && tracker.calls[|tracker.calls| - 1].StuckAt?
    }

    /** The handler's answer; with no handler there is nothing to fail. */
    method MessageFailure(handler: bool, pos: P) returns (ok: bool)
      modifies downstream, downstream.journal
      ensures downstream.journal.Delivered()
      ensures handler ==> ok == downstream.parks(old(downstream.calls), pos)
                          && downstream.calls == old(downstream.calls) + 1
      ensures !handler ==> ok && downstream.calls == old(downstream.calls)
      ensures downstream.log == old(downstream.log) + if handler && ok then [ParkConfirmed(pos)] else []
      ensures Refused(downstream.journal.acts) <==> old(Refused(downstream.journal.acts)) || !ok
    {
      ok := true;
      if handler {
        ok := downstream.Park(pos);
      }
    }

    method Progress(pos: P)
      requires Valid()
      modifies tracker
      ensures Valid() && tracker.calls == old(tracker.calls) + [ProgressAt(pos)]
    {
      tracker.Progress(pos);
    }

    method ProgressUpTo(ps: seq<P>, n: nat)
      requires Valid() && n <= |ps|
      modifies tracker
      ensures Valid() && tracker.calls == old(tracker.calls) + Progresses(ps[..n])
      ensures n > 0 ==> !EndsStuck()
    {
      for i := 0 to n
        invariant Valid() && tracker.calls == old(tracker.calls) + Progresses(ps[..i])
      {
        Progress(ps[i]);
        assert Progresses(ps[..i + 1]) == Progresses(ps[..i]) + [ProgressAt(ps[i])];
      }
    }

    /** Reports a wedge exactly when the tracker's history makes this call due. */
    method Stuck(pos: P)
      requires Valid()
      modifies this`alarms, tracker, clock
      ensures Valid()
      ensures tracker.calls == old(tracker.calls) + [StuckAt(pos, Identifies(pos), clock.time)]
      ensures alarms == old(alarms) + if Due(tracker.calls, |tracker.calls| - 1) then [pos] else []
    {
      var now := clock.Now();
      var stuckFor, escalate := tracker.Stuck(pos, Identifies(pos), now);
      if !escalate {
        return;
      }
      alarms := alarms + [pos];
    }

    method Failed(ctx: Context, pos: P, err: SendError) returns (d: Disposition)
      requires Valid()
      modifies this`alarms, downstream, downstream.journal, tracker, clock, ctx
      ensures downstream.journal.Delivered()
      ensures Valid() && (old(ctx.dead) ==> ctx.dead) && (old(ctx.Live()) ==> ctx.Live())
      ensures d == Judge(hooks, Refuses(err, false), ctx.dead, downstream.parks(old(downstream.calls), pos))
      ensures old(downstream.calls) <= downstream.calls
      ensures downstream.log == old(downstream.log) + Parking(hooks, d, pos)
      ensures Tracked(old(tracker.calls), d, pos) && (d == Stopped ==> EndsStuck()) && (d == Parked ==> !EndsStuck())
      ensures Concerns(old(tracker.calls), tracker.calls, [pos])
      ensures d != Stopped ==> (Refused(downstream.journal.acts) <==> old(Refused(downstream.journal.acts)))
    {
      hide Lost, Obedient, Listed, Renewed, Listings, Labelling, Swept, Overruns, Failing, Unanswered, Refused;
      var e := ctx.Err();
      if e {
        return Canceled;
      }
      if hooks.Permanent(err) {
        var ok := MessageFailure(hooks.poison, pos);
        if ok {
          Progress(pos);
          return Parked;
        }
        Stuck(pos);
        return Stopped;
      }
      var _ := MessageFailure(false, pos);
      Stuck(pos);
      return Stopped;
    }

    /** The tracker learns of every disposal and every stop, and of nothing else. */
    ghost predicate Tracked(before: seq<Call<P>>, d: Disposition, pos: P)
      reads tracker, clock
    {
      tracker.calls == before + match d
                                case Canceled => []
                                case Stopped => [StuckAt(pos, Identifies(pos), clock.time)]
                                case _ => [ProgressAt(pos)]
    }

    method Send(ctx: Context, pos: P) returns (d: Disposition)
      requires Valid()
      modifies this`alarms, downstream, downstream.journal, tracker, clock, ctx
      ensures downstream.journal.Delivered()
      ensures Valid() && (old(ctx.dead) ==> ctx.dead) && (old(ctx.Live()) ==> ctx.Live())
      ensures var v := downstream.verdict(old(downstream.calls), pos);
              && d == Judge(hooks, v, ctx.dead, downstream.parks(old(downstream.calls) + 1, pos))
              && downstream.log == old(downstream.log) + SendEvents(v, pos) + Parking(hooks, d, pos)
      ensures old(downstream.calls) < downstream.calls
      ensures Tracked(old(tracker.calls), d, pos) && (d == Sent || d == Parked ==> !EndsStuck())
      ensures (d == Stopped ==> EndsStuck()) && (d == Canceled ==> ctx.dead)
      ensures Concerns(old(tracker.calls), tracker.calls, [pos])
      ensures d != Stopped ==> (Refused(downstream.journal.acts) <==> old(Refused(downstream.journal.acts)))
    {
      hide Lost, Obedient, Listed, Renewed, Listings, Labelling, Swept, Overruns, Failing, Unanswered, Refused;
      var err := downstream.Send(pos);
      if err.None? {
        Progress(pos);
        return Sent;
      }
      d := Failed(ctx, pos, err.value);
    }

    /** The batch itself, and progress recorded for as much of it as the sender counts. */
    method Forward(ps: seq<P>) returns (n: nat, err: Option<SendError>)
      requires Valid()
      modifies downstream, downstream.journal, tracker
      ensures downstream.journal.Delivered()
      ensures Valid() && n <= |ps| && downstream.calls == old(downstream.calls) + 1
      ensures Refused(downstream.journal.acts) <==> old(Refused(downstream.journal.acts))
      ensures tracker.calls == old(tracker.calls) + Progresses(ps[..n])
      ensures Concerns(old(tracker.calls), tracker.calls, ps) && (n > 0 ==> !EndsStuck())
      ensures downstream.abiding ==>
                && n == AckedPrefix(downstream.verdict, old(downstream.calls), ps)
                && err == (if n < |ps| then ErrorOf(downstream.verdict(old(downstream.calls), ps[n]))
                           else downstream.overrules(old(downstream.calls)))
                && downstream.log == old(downstream.log)
                                     + Wave(downstream.verdict, old(downstream.calls), ps) + Acks(ps[..n])
    {
      hide AckedPrefix, Wave, Progresses, Concerns;
      var count;
      count, err := downstream.SendBatch(ps);
      n := Min(Max(count, 0), |ps|);
      ProgressUpTo(ps, n);
      ProgressConcerns(old(tracker.calls), ps, n);
    }

    /**
      `sent` were delivered, `advanced` positions may be passed, and `d` is what became of the
      message behind them. For an abiding sender the delivered prefix has no gap and the error of
      a short one is the next message's own. An error on top of a complete batch stops the lane
      as well, past every message and without a report: a stopped lane counts as stuck exactly
      when a message is left.
     */
    method SendBatch(ctx: Context, ps: seq<P>) returns (sent: nat, advanced: nat, d: Disposition)
      requires Valid() && ps != []
      modifies this`alarms, downstream, downstream.journal, tracker, clock, ctx
      ensures downstream.journal.Delivered()
      ensures Valid() && (old(ctx.dead) ==> ctx.dead) && (old(ctx.Live()) ==> ctx.Live())
      ensures old(downstream.calls) < downstream.calls
      ensures sent <= advanced <= |ps| && advanced == sent + (if d == Parked then 1 else 0)
      ensures d != Stopped ==> (Refused(downstream.journal.acts) <==> old(Refused(downstream.journal.acts)))
      ensures Concerns(old(tracker.calls), tracker.calls, ps) && (d == Sent || d == Parked ==> !EndsStuck())
      ensures downstream.abiding ==>
                && sent == AckedPrefix(downstream.verdict, old(downstream.calls), ps)
                && (d == Stopped ==> (EndsStuck() <==> sent < |ps|))
                && if sent == |ps| then
                     && d == (if downstream.overrules(old(downstream.calls)).Some? then Stopped else Sent)
                     && downstream.calls == old(downstream.calls) + 1 && alarms == old(alarms)
                     && downstream.log == old(downstream.log)
                                          + Wave(downstream.verdict, old(downstream.calls), ps) + Acks(ps)
                     && tracker.calls == old(tracker.calls) + Progresses(ps)
                   else
                     && d == Judge(hooks, downstream.verdict(old(downstream.calls), ps[sent]), ctx.dead,
                                   downstream.parks(old(downstream.calls) + 1, ps[sent]))
                     && downstream.log == old(downstream.log)
                                          + Wave(downstream.verdict, old(downstream.calls), ps) + Acks(ps[..sent])
                                          + Parking(hooks, d, ps[sent])
                     && Tracked(old(tracker.calls) + Progresses(ps[..sent]), d, ps[sent])
    {
      hide AckedPrefix, Wave, Parking, Due, Progresses, Lane.Tracked, Lane.EndsStuck, Concerns, Refused;
      hide Lost, Obedient, Listed, Renewed, Listings, Labelling, Swept, Overruns, Failing, Unanswered;
      var n, err := Forward(ps);
      if n == |ps| {
        assert ps[..n] == ps;
        if err.Some? {
          return n, n, Stopped;
        }
        return n, n, Sent;
      }
      var cause := if err.Some? then err.value else SendError(false, 0);
      ghost var mid := tracker.calls;
      var f := Failed(ctx, ps[n], cause);
      ConcernsOn(old(tracker.calls), mid, tracker.calls, ps, [ps[n]]);
      if f == Parked {
        return n, n + 1, Parked;
      }
      return n, n, f;
    }

    /** Hands an undecodable message to the handler; true only once the park is confirmed. */
    method Park(pos: P) returns (ok: bool)
      requires Valid()
      modifies downstream, downstream.journal, tracker
      ensures downstream.journal.Delivered()
      ensures Valid() && old(downstream.calls) <= downstream.calls
      ensures hooks.poison ==> ok == downstream.parks(old(downstream.calls), pos)
      ensures !hooks.poison ==> ok
      ensures downstream.log == old(downstream.log) + if hooks.poison && ok then [ParkConfirmed(pos)] else []
      ensures tracker.calls == old(tracker.calls) + if ok then [ProgressAt(pos)] else []
      ensures Refused(downstream.journal.acts) <==> old(Refused(downstream.journal.acts)) || !ok
    {
      ok := MessageFailure(hooks.poison, pos);
      if ok {
        Progress(pos);
      }
    }
  }

  /** What the tracker heard since is about these positions. */
  ghost predicate Concerns<P>(before: seq<Call<P>>, after: seq<Call<P>>, ps: seq<P>) {
    before <= after && forall k :: |before| <= k < |after| ==> after[k].pos in ps
  }

  lemma ConcernsOn<P>(a: seq<Call<P>>, b: seq<Call<P>>, c: seq<Call<P>>, ps: seq<P>, qs: seq<P>)
    requires Concerns(a, b, ps) && Concerns(b, c, qs) && forall p :: p in qs ==> p in ps
    ensures Concerns(a, c, ps)
  {
  }

  lemma NothingConcerns<P>(calls: seq<Call<P>>, ps: seq<P>)
    ensures Concerns(calls, calls, ps)
  {
  }

  lemma ProgressConcerns<P>(before: seq<Call<P>>, ps: seq<P>, n: nat)
    requires n <= |ps|
    ensures Concerns(before, before + Progresses(ps[..n]), ps)
  {
  }

  function Parking<P>(hooks: Hooks, d: Disposition, pos: P): seq<Event<P>> {
    if d == Parked && hooks.poison then [ParkConfirmed(pos)] else []
  }

  // ----- advancing only past disposed messages

  /** Whatever the send meets, a message advanced past was acknowledged or confirmed parked. */
  ghost predicate AdvancesSafely(hooks: Hooks, err: SendError) {
    forall dead, parked :: Judge(hooks, Refuses(err, false), dead, parked) == Parked ==> hooks.poison && parked
  }

  /**
    A nil handler answers "no error", so the policy is safe exactly when hooks are validated or
    the unaccompanied classifier claims nothing.
   */
  lemma SafeExactlyWhenNothingIsClaimedUnparked(hooks: Hooks)
    ensures (forall err :: AdvancesSafely(hooks, err))
            <==> hooks.Validated() || (forall err :: !hooks.unsendable.value(err))
  {
    if !hooks.Validated() {
      if err :| hooks.unsendable.value(err) {
        assert Judge(hooks, Refuses(err, false), false, false) == Parked;
        assert !AdvancesSafely(hooks, err);
      }
    }
  }

  /** With validated hooks a disposition that advances leaves its proof in the log. */
  lemma AdvanceLeavesProof<P>(hooks: Hooks, v: Verdict, dead: bool, parked: bool, pos: P)
    requires hooks.Validated()
    ensures var d := Judge(hooks, v, dead, parked);
            var events := SendEvents(v, pos) + Parking(hooks, d, pos);
            && (d == Sent ==> Acked(pos) in events)
            && (d == Parked ==> ParkConfirmed(pos) in events && parked)
            && (d == Stopped || d == Canceled ==> Acked(pos) !in events && ParkConfirmed(pos) !in events)
  {
    var d := Judge(hooks, v, dead, parked);
    var events := SendEvents(v, pos) + Parking(hooks, d, pos);
    match d
    case Sent => assert events[1] == Acked(pos);
    case Parked => assert events[|events| - 1] == ParkConfirmed(pos);
    case _ =>
  }
}
