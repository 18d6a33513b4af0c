/** The store and the change stream as one relay process meets them. */
module StreamClusters {
  import opened Prelude
  import opened TokenKeys
  import opened StreamProtocol
  import opened StreamTheorems
  import Lanes
  import TokenStores

  /** What a returned error wraps; no fault at all is nil. */
  datatype Fault = LaneStopped | Invalidated | HistoryLost | StreamFault | StoreFault | Undecodable | ParkFault

  const FATAL := {Invalidated, HistoryLost}

  /** One insert as the change stream serves it; a token or id that cannot be extracted is "". */
  datatype Change = Change(token: string, id: string, time: int, decodes: bool)

  datatype Served = Event(change: Change) | Poison(change: Change) | Drained | Failed(fault: Fault)

  /** The stuck-lane key of an event: its token, or else its id, or else nothing. */
  function StuckKey(c: Change): string {
    if c.token != "" then c.token else c.id
  }

  /** What happened downstream, and to which event. */
  datatype Delivery = Delivery(item: nat, what: Lanes.Event<string>)

  /** A save that was tried: the position, and what was written. */
  datatype Attempt = Attempt(place: nat, token: string, time: int)

  ghost predicate Grew(before: Sys, past: seq<Label>, sys: Sys, run: seq<Label>) {
    && past <= run && before.confirmed <= sys.confirmed && before.touched <= sys.touched
    && before.stored <= sys.stored && before.late <= sys.late
    && before.oplog <= sys.oplog && (before.row.Some? ==> sys.row.Some?)
  }

  lemma GrewOn(before: Sys, past: seq<Label>, mid: Sys, midRun: seq<Label>, sys: Sys, run: seq<Label>)
    requires Grew(before, past, mid, midRun) && Grew(mid, midRun, sys, run)
    ensures Grew(before, past, sys, run)
  {
  }

  class Cluster {
    const site: Site
    const me: nat
    const name: string
    const store: TokenStores.RelayStore
    const event: nat -> Change
    const rivals: nat -> seq<Label>
    const leads: nat -> bool
    const fails: nat -> bool              // the k-th store call returns an error
    const lulls: nat -> bool              // the k-th Next finds nothing buffered
    const breaks: nat -> Option<Fault>    // what the stream itself reports
    const heads: nat -> (string, int)     // the k-th checkpoint reading
    var sys: Sys
    var ticks: nat
    ghost var run: seq<Label>
    ghost var delivered: seq<Delivery>    // what `Mirror` was given, and nothing else
    ghost var loaded: (string, int)       // the latest token and time loaded
    ghost var elections: seq<Result<bool>>   // the lease's answers
    ghost var attempt: Option<Attempt>    // the latest save tried
    ghost var answer: Result<bool>        // what it was answered
    ghost var head: string                // the latest checkpoint read
    ghost var fatal: set<Fault>           // fatal conditions the stream has reported
    ghost var anew: bool                 // the latest open started at "now"
    ghost var pulls: nat                 // events this process has pulled off the stream

    /**
      A protocol run whose row is the store's, and whose deliveries by this process are exactly
      those mirrored, each under its event's own key.
     */
    ghost predicate Valid()
      reads this, store
    {
      && sys == Play(site, INIT, run)
      && store.Row(name) == sys.row && store.payload == site.payload
      && (forall e: nat :: event(e).token != "" ==> site.place(event(e).token) == e + 1)
      && Own(run, me) == MirroredAll(delivered, me)
      && Keyed(event, delivered)
      && Recorded(sys, delivered)
      && pulls == Pulls(run, me)
    }

    /** A store call has failed since, or the stream has reported a fault. */
    ghost predicate FailedSince(tick: nat)
      reads this
    {
      exists k :: tick <= k < ticks && fails(k)
    }

    ghost predicate BrokeSince(tick: nat)
      reads this
    {
      exists k :: tick <= k < ticks && breaks(k).Some?
    }

    /** Within this much of the run nothing was buffered at some call, or there was nothing behind `at` to serve. */
    ghost predicate DryBy(run: seq<Label>, ticks: nat, past: seq<Label>, tick: nat, at: nat) {
      || (exists k :: tick <= k < ticks && lulls(k))
      || exists k :: |past| <= k <= |run| && Play(site, INIT, run[..k]).oplog <= at
    }

    lemma DryStays(run: seq<Label>, ticks: nat, past: seq<Label>, tick: nat, at: nat, later: seq<Label>,
                   laterTicks: nat, earlier: seq<Label>, earlierTick: nat)
      requires DryBy(run, ticks, past, tick, at) && run <= later && ticks <= laterTicks
      requires earlier <= past && earlierTick <= tick
      ensures DryBy(later, laterTicks, earlier, earlierTick, at)
    {
      hide Play;
      if k :| |past| <= k <= |run| && Play(site, INIT, run[..k]).oplog <= at {
        assert later[..k] == run[..k];
      }
    }

    /** No step has skipped an event, and no save that is yet to land will. */
    ghost predicate Spotless(past: seq<Label>) {
      Tidy(site, INIT, past) && Firm(site, Play(site, INIT, past))
    }

    /** If the run was spotless it still is. */
    ghost predicate StaysTidy(past: seq<Label>)
      reads this
    {
      Spotless(past) ==> Spotless(run)
    }

    constructor (site: Site, me: nat, name: string, store: TokenStores.RelayStore, event: nat -> Change,
                 rivals: nat -> seq<Label>, leads: nat -> bool, fails: nat -> bool,
                 lulls: nat -> bool, breaks: nat -> Option<Fault>, heads: nat -> (string, int))
      requires store.Row(name) == None && store.payload == site.payload
      requires forall e: nat :: event(e).token != "" ==> site.place(event(e).token) == e + 1
      ensures Valid() && this.site == site && this.me == me && this.store == store
      ensures run == [] && delivered == [] && fatal == {} && pulls == 0
    {
      this.site, this.me, this.name, this.store := site, me, name, store;
      this.event, this.rivals, this.leads, this.fails := event, rivals, leads, fails;
      this.lulls, this.breaks, this.heads := lulls, breaks, heads;
      sys, ticks, run, delivered, loaded, elections := INIT, 0, [], [], ("", TokenStores.ZERO_TIME), [];
      attempt, answer, head, fatal, anew, pulls := None, Err, "", {}, false, 0;
    }

    function Here(): Local
      reads this
    {
      LocalOf(sys, me)
    }

    function Cur(): Cursor
      reads this
    {
      Here().cursor
    }

    /** Events the stream can resume behind never share a key, and any other goes by its id. */
    lemma KeysTellEventsApart(d: nat, e: nat)
      requires Valid() && event(d).token != ""
      ensures event(e).token != "" ==> (StuckKey(event(d)) == StuckKey(event(e)) <==> d == e)
      ensures event(e).token == "" ==> StuckKey(event(e)) == event(e).id
    {
      hide Play, Own, MirroredAll, Keyed, Recorded, Pulls;
      assert event(e).token != "" ==> site.place(event(e).token) == e + 1;
    }

    // ----- steps

    method Do(l: Label)
      requires Valid() && !IsDelivery(l, me) && l != Pull(me)
      modifies this`sys, this`run, store`offsets
      ensures Valid() && sys == Next(site, old(sys), l) && run == old(run) + [l]
      ensures Later(old(sys), old(run))
      ensures !Careless(site, old(sys), l) ==> StaysTidy(old(run))
    {
      hide Next;
      StepOn(site, run, l);
      EveryRunIsSane(site, run);
      StepGrows(site, sys, l);
      if Spotless(run) && !Careless(site, sys, l) {
        StepStaysFirm(site, sys, l);
      }
      sys := Next(site, sys, l);
      run := run + [l];
      if sys.row.Some? {
        store.offsets := store.offsets[name := sys.row.value];
      }
      assert run[..|run| - 1] == old(run);
    }

    /** The cursor is moved on by one event. */
    method Advance()
      requires Valid() && Cur().Open? && Cur().next < sys.oplog
      modifies this`sys, this`run, this`pulls
      ensures Valid() && Later(old(sys), old(run)) && pulls == old(pulls) + 1
      ensures Here() == old(Here()).(cursor := Open(old(Cur().next) + 1, old(Cur().next)))
      ensures old(Clean(Cur())) ==> StaysTidy(old(run))
    {
      var l := Pull(me);
      StepOn(site, run, l);
      EveryRunIsSane(site, run);
      StepGrows(site, sys, l);
      if Spotless(run) && Clean(Cur()) {
        StepStaysFirm(site, sys, l);
      }
      sys := Next(site, sys, l);
      run := run + [l];
      pulls := pulls + 1;
      assert run[..|run| - 1] == old(run);
    }

    /** Nothing was taken back. */
    ghost predicate Later(before: Sys, past: seq<Label>)
      reads this
    {
      Grew(before, past, sys, run)
    }

    /** The others move, each of them driving Run, and saves given up on land; this process does not move. */
    method Interfere()
      requires Valid()
      modifies this`sys, this`run, this`ticks, store`offsets
      ensures Valid() && Later(old(sys), old(run)) && Here() == old(Here()) && StaysTidy(old(run))
      ensures old(ticks) < ticks
    {
      var moves := rivals(ticks);
      ticks := ticks + 1;
      for k := 0 to |moves|
        invariant Valid() && Later(old(sys), old(run)) && Here() == old(Here()) && StaysTidy(old(run))
        invariant old(ticks) < ticks
      {
        if Actor(moves[k]) != Some(me) && !Careless(site, sys, moves[k]) {
          StandsStill(site, sys, moves[k], me);
          Do(moves[k]);
        }
      }
    }

    method Issue(l: Label)
      requires Valid() && !IsDelivery(l, me) && !l.Pull? && !l.Persist? && !l.Abandon?
      modifies this`sys, this`run, this`ticks, store`offsets
      ensures old(ticks) <= ticks
      ensures Valid() && Later(old(sys), old(run)) && run != [] && run[|run| - 1] == l && StaysTidy(old(run))
      ensures var was := Play(site, INIT, run[..|run| - 1]);
              sys == Next(site, was, l) && LocalOf(was, me) == old(Here()) && Later(was, run[..|run| - 1])
    {
      hide Play, Tidy, Next, Own, MirroredAll, Recorded, Keyed, Firm, Cluster.Spotless;
      Interfere();
      ghost var mid := run;
      Do(l);
      assert run[..|run| - 1] == mid;
    }

    // ----- the store

    method TryLead() returns (r: Result<bool>)
      requires Valid()
      modifies this`sys, this`run, this`ticks, this`elections, store`offsets
      ensures old(ticks) <= ticks && (r.Err? ==> FailedSince(old(ticks)))
      ensures Valid() && Later(old(sys), old(run)) && Here() == old(Here()) && StaysTidy(old(run))
      ensures elections == old(elections) + [r]
    {
      r := if fails(ticks) then Err else Ok(leads(ticks));
      elections := elections + [r];
      Interfere();
    }

    method LoadToken() returns (r: Result<(string, int)>)
      requires Valid() && !Cur().Open?
      modifies this`sys, this`run, this`ticks, this`loaded, store`offsets
      ensures old(ticks) <= ticks && (r.Err? ==> FailedSince(old(ticks)))
      ensures Valid() && Later(old(sys), old(run)) && StaysTidy(old(run))
      ensures Here().baseline == old(Here().baseline) && !Cur().Open?
      ensures r.Ok? ==> r.value == loaded && (r.value.0 == "" || r.value.0 in sys.stored)
      ensures r.Ok? ==> r.value.0 == (if sys.row.Some? then sys.row.value.token else "")
      ensures r.Ok? ==> r.value.1 == TokenStores.TimeOf(sys.row)
      ensures r.Ok? ==> Cur() == Loaded(if r.value.0 != "" then Some(site.place(r.value.0)) else Here().baseline)
    {
      if fails(ticks) {
        Interfere();
        return Err;
      }
      Issue(Load(me));
      EveryRunIsSane(site, run);
      var token, time := store.LoadToken(name);
      loaded := (token, time);
      r := Ok((token, time));
    }

    /**
      A save at the cursor's safe position or its head; `at` is which. A save that is not answered
      may land at any later time, or never; an empty token is refused.
     */
    method SaveToken(token: string, time: int, ghost at: nat) returns (r: Result<bool>)
      requires Valid() && Cur().Open? && (at == Cur().safe || at == Cur().next)
      requires token != "" ==> site.place(token) == at
      modifies this`sys, this`run, this`ticks, this`attempt, this`answer, store`offsets
      ensures old(ticks) <= ticks && (r.Err? ==> token == "" || FailedSince(old(ticks)))
      ensures Valid() && Later(old(sys), old(run)) && Cur() == old(Cur())
      ensures at == Cur().safe || token == "" ==> StaysTidy(old(run))
      ensures attempt == Some(Attempt(at, token, time)) && answer == r
      ensures token == "" ==> r.Err?
      ensures r.Err? ==> Here() == old(Here()) && (token != "" ==> (token, time) in sys.late)
      ensures r.Ok? ==> Here().baseline == if r.value then None else old(Here().baseline)
      ensures r == Ok(true) ==>
                && token in sys.stored
                && sys.row == Some(TokenStores.TokenRow(token, KeyOf(site.payload(token)), Some(time)))
    {
      hide Play, Tidy, Sane, Own, MirroredAll, Recorded, Cluster.Spotless, Keyed, Pulls;
      attempt := Some(Attempt(at, token, time));
      var failed := fails(ticks);
      Interfere();
      if failed {
        r := Err;
        GiveUp(token, time, at);
      } else {
        r := Store(token, time, at);
      }
      answer := r;
    }

    /** The save is answered. */
    method Store(token: string, time: int, ghost at: nat) returns (r: Result<bool>)
      requires Valid() && Cur().Open? && (at == Cur().safe || at == Cur().next)
      requires token != "" ==> site.place(token) == at
      modifies this`sys, this`run, store`offsets
      ensures r.Err? <==> token == ""
      ensures Valid() && Later(old(sys), old(run)) && Cur() == old(Cur())
      ensures at == Cur().safe || token == "" ==> StaysTidy(old(run))
      ensures r.Err? ==> Here() == old(Here())
      ensures r.Ok? ==> Here().baseline == if r.value then None else old(Here().baseline)
      ensures r == Ok(true) ==>
                && token in sys.stored
                && sys.row == Some(TokenStores.TokenRow(token, KeyOf(site.payload(token)), Some(time)))
    {
      hide Play, Tidy, Sane, Own, MirroredAll, Recorded, Cluster.Spotless, Keyed, Pulls;
      r := store.SaveToken(name, token, time);
      if r.Ok? {
        var l := Persist(me, token, time);
        SaveIsTheStep(site, sys, l);
        Adopt(l);
      }
    }

    /** The save was sent; whether and when it lands is no longer this process's to know. */
    method GiveUp(token: string, time: int, ghost at: nat)
      requires Valid() && Cur().Open? && (at == Cur().safe || at == Cur().next)
      requires token != "" ==> site.place(token) == at
      modifies this`sys, this`run, this`ticks, store`offsets
      ensures old(ticks) <= ticks
      ensures Valid() && Later(old(sys), old(run)) && Here() == old(Here())
      ensures token != "" ==> (token, time) in sys.late
      ensures at == Cur().safe || token == "" ==> StaysTidy(old(run))
    {
      hide Play, Tidy, Sane, Own, MirroredAll, Recorded, Keyed;
      if token != "" {
        if Spotless(run) && at == Cur().safe {
          EveryTidyRunKeeps(site, run);
          SafeIsFirm(site, sys, me);
        }
        Do(Abandon(me, token, time));
      }
      Interfere();
    }

    /** The store has taken step `l`; so does the protocol. */
    method Adopt(l: Label)
      requires l.Persist? && l.who == me
      requires sys == Play(site, INIT, run) && store.Row(name) == Next(site, sys, l).row
      requires store.payload == site.payload
      requires forall e: nat :: event(e).token != "" ==> site.place(event(e).token) == e + 1
      requires Own(run, me) == MirroredAll(delivered, me) && Recorded(sys, delivered)
      requires Keyed(event, delivered) && pulls == Pulls(run, me)
      modifies this`sys, this`run
      ensures Valid() && sys == Next(site, old(sys), l) && Later(old(sys), old(run))
      ensures !Skips(site, old(sys), l) ==> StaysTidy(old(run))
    {
      StepOn(site, run, l);
      EveryRunIsSane(site, run);
      StepGrows(site, sys, l);
      if Spotless(run) && !Skips(site, sys, l) {
        StepStaysFirm(site, sys, l);
      }
      sys := Next(site, sys, l);
      run := run + [l];
      assert run[..|run| - 1] == old(run);
    }

    // ----- the cursor

    method Watch(token: string) returns (fault: Option<Fault>)
      requires Valid() && Cur() == Loaded(if token == "" then None else Some(site.place(token)))
      modifies this`sys, this`run, this`ticks, this`fatal, this`anew, store`offsets
      ensures old(ticks) <= ticks && (fault.Some? ==> FailedSince(old(ticks)))
      ensures Valid() && Later(old(sys), old(run)) && Here().baseline == old(Here().baseline) && StaysTidy(old(run))
      ensures fatal == old(fatal) + if fault.Some? then {fault.value} * FATAL else {}
      ensures fault.Some? ==> Cur() == old(Cur()) && fault.value in {HistoryLost, StreamFault}
      ensures fault.None? ==> Clean(Cur()) && anew == (token == "") && (token != "" ==> Cur().safe == site.place(token))
    {
      if fails(ticks) {
        fault := Some(if breaks(ticks) == Some(HistoryLost) then HistoryLost else StreamFault);
        fatal := fatal + {fault.value} * FATAL;
        Interfere();
        return;
      }
      anew := token == "";
      Issue(Label.Watch(me));
      fault := None;
    }

    /** One event if there is one; an event that does not decode moves the cursor all the same. */
    method TryNext() returns (r: Served)
      requires Valid() && Cur().Open?
      modifies this`sys, this`run, this`ticks, this`fatal, this`pulls, store`offsets
      ensures Valid() && Later(old(sys), old(run)) && Here().baseline == old(Here().baseline)
      ensures old(Clean(Cur())) ==> StaysTidy(old(run))
      ensures r.Event? || r.Poison? ==>
                && Cur() == Open(old(Cur().next) + 1, old(Cur().next))
                && r.change == event(old(Cur().next)) && r.change.decodes == r.Event?
      ensures pulls == old(pulls) + if r.Event? || r.Poison? then 1 else 0
      ensures r.Drained? || r.Failed? ==> Cur() == old(Cur()) && StaysTidy(old(run))
      ensures r.Drained? ==> DryBy(run, ticks, old(run), old(ticks), Cur().next)
      ensures (r.Failed? <==> breaks(old(ticks)).Some?) && old(ticks) < ticks
      ensures r.Failed? ==> r.fault in {Invalidated, HistoryLost, StreamFault}
      ensures fatal == old(fatal) + if r.Failed? then {r.fault} * FATAL else {}
    {
      hide Play, Tidy, Own, MirroredAll, Recorded, Keyed, Firm, Cluster.Spotless;
      var lull, broken := lulls(ticks), breaks(ticks);
      Interfere();
      if broken.Some? {
        r := Failed(if broken.value in FATAL then broken.value else StreamFault);
        fatal := fatal + {r.fault} * FATAL;
        return;
      }
      var at := Cur().next;
      if lull || at >= sys.oplog {
        DryNow(old(run), at);
        return Drained;
      }
      Advance();
      r := if event(at).decodes then Event(event(at)) else Poison(event(at));
    }

    lemma DryNow(past: seq<Label>, at: nat)
      requires Valid() && past <= run
      ensures sys.oplog <= at ==> DryBy(run, ticks, past, 0, at) && forall tick :: DryBy(run, ticks, past, tick, at)
    {
      assert run[..|run|] == run;
    }

    /** A resumable token at the cursor's head, if the driver has one. */
    method Checkpoint() returns (token: string, time: int)
      requires Valid() && Cur().Open?
      modifies this`ticks, this`head
      ensures old(ticks) <= ticks
      ensures Valid() && (token != "" ==> site.place(token) == Cur().next) && head == token
    {
      token, time := heads(ticks).0, heads(ticks).1;
      ticks := ticks + 1;
      if token != "" && site.place(token) != Cur().next {
        token := "";
      }
      head := token;
    }

    method Remember()
      requires Valid() && Clean(Cur())
      modifies this`sys, this`run, store`offsets
      ensures Valid() && Later(old(sys), old(run)) && Here() == Local(Some(old(Cur().safe)), old(Cur()))
      ensures StaysTidy(old(run))
    {
      Do(Label.Remember(me));
    }

    method Close()
      requires Valid()
      modifies this`sys, this`run, store`offsets
      ensures Valid() && Later(old(sys), old(run)) && Here() == old(Here()).(cursor := Closed)
      ensures sys.row == old(sys.row) && StaysTidy(old(run))
    {
      Do(Label.Close(me));
    }

    // ----- deliveries

    /** What happened downstream to the event just served, one step an event. */
    method Mirror(events: seq<Lanes.Event<string>>)
      requires Valid() && Cur().Open? && Cur().safe < Cur().next
      requires forall k :: 0 <= k < |events| ==> events[k].pos == StuckKey(event(Cur().next - 1))
      requires forall k :: 0 <= k < |events| - 1 ==> events[k].Reached?
      modifies this`sys, this`run, this`ticks, this`delivered, store`offsets
      ensures Valid() && Later(old(sys), old(run)) && Here().baseline == old(Here().baseline) && StaysTidy(old(run))
      ensures old(ticks) <= ticks && Whats(delivered) == old(Whats(delivered)) + events
      ensures Cur() == if Settles(events) then Cursor.Open(old(Cur().next), old(Cur().next)) else old(Cur())
      ensures Settles(events) ==> old(Cur().next) - 1 in sys.confirmed
    {
      for k := 0 to |events|
        invariant Valid() && Later(old(sys), old(run)) && Here().baseline == old(Here().baseline)
        invariant StaysTidy(old(run)) && old(ticks) <= ticks
        invariant Whats(delivered) == old(Whats(delivered)) + events[..k]
        invariant Cur() == if Settles(events[..k]) then Cursor.Open(old(Cur().next), old(Cur().next)) else old(Cur())
        invariant Settles(events[..k]) ==> old(Cur().next) - 1 in sys.confirmed
      {
        assert events[..k + 1] == events[..k] + [events[k]];
        Deliver(events[k]);
      }
      assert events[..|events|] == events;
    }

    /** One event, behind whatever the others do first. */
    method Deliver(e: Lanes.Event<string>)
      requires Valid() && Cur().Open? && Cur().safe < Cur().next
      requires e.pos == StuckKey(event(Cur().next - 1))
      modifies this`sys, this`run, this`ticks, this`delivered, store`offsets
      ensures Valid() && Later(old(sys), old(run)) && Here().baseline == old(Here().baseline) && StaysTidy(old(run))
      ensures old(ticks) <= ticks && Whats(delivered) == old(Whats(delivered)) + [e]
      ensures Cur() == if e.Reached? then old(Cur()) else Cursor.Open(old(Cur().next), old(Cur().next))
      ensures !e.Reached? ==> old(Cur().next) - 1 in sys.confirmed
    {
      hide Play, Tidy, Recorded, Keyed, Own, MirroredAll, Whats, Next;
      Interfere();
      Record(e);
    }

    method Record(e: Lanes.Event<string>)
      requires Valid() && Cur().Open? && Cur().safe < Cur().next
      requires e.pos == StuckKey(event(Cur().next - 1))
      modifies this`sys, this`run, this`delivered
      ensures Valid() && Later(old(sys), old(run)) && Here().baseline == old(Here().baseline) && StaysTidy(old(run))
      ensures Whats(delivered) == old(Whats(delivered)) + [e]
      ensures Cur() == if e.Reached? then old(Cur()) else Cursor.Open(old(Cur().next), old(Cur().next))
      ensures !e.Reached? ==> old(Cur().next) - 1 in sys.confirmed
    {
      hide Play, Tidy, Sane, Own, MirroredAll, Whats, Next, Recorded, Mirrored, Keyed;
      var d := Delivery(Cur().next - 1, e);
      var l := Mirrored(d, me);
      StepOn(site, run, l);
      EveryRunIsSane(site, run);
      StepGrows(site, sys, l);
      DeliveryMoves(site, sys, me, d, delivered);
      if Spotless(run) {
        StepStaysFirm(site, sys, l);
      }
      OwnOne(run, l, me);
      PullsOne(run, l, me);
      OneMore(delivered, d, me);
      KeyedOne(event, delivered, d);
      sys := Next(site, sys, l);
      run := run + [l];
      delivered := delivered + [d];
    }
  }

  /** The last of these events acknowledges the message, or confirms that it was parked. */
  predicate Settles(events: seq<Lanes.Event<string>>) {
    events != [] && !events[|events| - 1].Reached?
  }

  /** How many events process `i` has pulled in a run. */
  ghost function Pulls(run: seq<Label>, i: nat): nat {
    if run == [] then 0 else Pulls(run[..|run| - 1], i) + if run[|run| - 1] == Pull(i) then 1 else 0
  }

  lemma PullsOne(run: seq<Label>, l: Label, i: nat)
    ensures Pulls(run + [l], i) == Pulls(run, i) + if l == Pull(i) then 1 else 0
  {
    assert (run + [l])[..|run|] == run;
  }

  // ----- the deliveries of a run

  predicate IsDelivery(l: Label, i: nat) {
    (l.Reach? || l.Dispose?) && l.who == i
  }

  /** The deliveries of process `i` in a run, in order. */
  ghost function Own(run: seq<Label>, i: nat): seq<Label> {
    if run == [] then []
    else Own(run[..|run| - 1], i) + if IsDelivery(run[|run| - 1], i) then [run[|run| - 1]] else []
  }

  function Mirrored(d: Delivery, i: nat): Label {
    if d.what.Reached? then Reach(i, d.item) else Dispose(i, d.item)
  }

  ghost function MirroredAll(ds: seq<Delivery>, i: nat): seq<Label> {
    seq(|ds|, k requires 0 <= k < |ds| => Mirrored(ds[k], i))
  }

  /** The downstream's own record of these deliveries. */
  ghost function Whats(ds: seq<Delivery>): seq<Lanes.Event<string>> {
    seq(|ds|, k requires 0 <= k < |ds| => ds[k].what)
  }

  /** Every delivery went out under its event's own key. */
  ghost predicate Keyed(event: nat -> Change, ds: seq<Delivery>) {
    forall k :: 0 <= k < |ds| ==> ds[k].what.pos == StuckKey(event(ds[k].item))
  }

  lemma KeyedOne(event: nat -> Change, ds: seq<Delivery>, d: Delivery)
    requires Keyed(event, ds) && d.what.pos == StuckKey(event(d.item))
    ensures Keyed(event, ds + [d])
  {
  }

  /** The protocol's history holds every one of these deliveries. */
  ghost predicate Recorded(s: Sys, ds: seq<Delivery>) {
    forall k :: 0 <= k < |ds| ==> ds[k].item in s.touched && (!ds[k].what.Reached? ==> ds[k].item in s.confirmed)
  }

  /** A delivery of the event just served is recorded, and moves the cursor only when it settles. */
  lemma DeliveryMoves(site: Site, s: Sys, i: nat, d: Delivery, ds: seq<Delivery>)
    requires Serving(CursorOf(s, i), d.item) && Recorded(s, ds)
    ensures var l := Mirrored(d, i);
            var t := Next(site, s, l);
            && l == (if d.what.Reached? then Reach(i, d.item) else Dispose(i, d.item))
            && IsDelivery(l, i) && !Careless(site, s, l) && Recorded(t, ds + [d]) && t.row == s.row
            && LocalOf(t, i).baseline == LocalOf(s, i).baseline
            && CursorOf(t, i) == (if d.what.Reached? then CursorOf(s, i) else Open(d.item + 1, d.item + 1))
            && (!d.what.Reached? ==> d.item in t.confirmed)
  {
  }

  lemma OwnOne(run: seq<Label>, l: Label, i: nat)
    ensures Own(run + [l], i) == Own(run, i) + if IsDelivery(l, i) then [l] else []
  {
    assert (run + [l])[..|run|] == run;
  }

  lemma OneMore(ds: seq<Delivery>, d: Delivery, i: nat)
    ensures MirroredAll(ds + [d], i) == MirroredAll(ds, i) + [Mirrored(d, i)]
    ensures Whats(ds + [d]) == Whats(ds) + [d.what]
  {
  }

  /** A delivery of `i` in the run is one of its own. */
  lemma {:induction false} OwnHolds(run: seq<Label>, i: nat, k: nat)
    requires k < |run| && IsDelivery(run[k], i)
    ensures run[k] in Own(run, i)
  {
    if k < |run| - 1 {
      OwnHolds(run[..|run| - 1], i, k);
    }
  }

  lemma SafeIsFirm(site: Site, s: Sys, i: nat)
    requires Inv(site, s) && CursorOf(s, i).Open?
    ensures !Loose(s, CursorOf(s, i).safe)
  {
    assert LocalHolds(s, i);
  }

  /** The guarded save is the protocol's step. */
  lemma SaveIsTheStep(site: Site, s: Sys, l: Label)
    requires l.Persist? && CursorOf(s, l.who).Open? && l.token != ""
    requires site.place(l.token) in {CursorOf(s, l.who).safe, CursorOf(s, l.who).next}
    ensures var (row, persisted) := TokenStores.Saved(s.row, l.token, KeyOf(site.payload(l.token)), l.time);
            var t := Next(site, s, l);
            && t.row == row && CursorOf(t, l.who) == CursorOf(s, l.who)
            && LocalOf(t, l.who).baseline == (if persisted then None else LocalOf(s, l.who).baseline)
            && (persisted ==> l.token in t.stored)
  {
  }

  lemma StandsStill(site: Site, s: Sys, l: Label, i: nat)
    requires Actor(l) != Some(i)
    ensures LocalOf(Next(site, s, l), i) == LocalOf(s, i)
  {
  }
}
