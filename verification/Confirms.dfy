/** The once-per-channel confirm-mode handshake among concurrent callers. */
module ConfirmModes {
  import opened Prelude

  /** The goroutine of one attempt: it calls the broker, records the answer, then wakes the waiters. */
  datatype Flight = Spawned | Calling | Recorded | Landed

  datatype Answer = Enabled | Refused(err: nat) | Expired | WasReset

  /** Where a caller is inside Enable. */
  datatype Pc = Outside | Waiting(wait: nat) | Woken | Returned(answer: Answer)

  /** One channel's bookkeeping, the attempts made on it, and every caller. */
  datatype Handshake = Handshake(
    inFlight: Option<nat>,
    enabled: bool,
    err: Option<nat>,
    flights: seq<Flight>,        // one per attempt; its index is its wait channel
    issued: nat,                 // Confirm RPCs ever issued
    pcs: map<nat, Pc>)

  datatype Label =
    | Enter(who: nat)
    | Wake(who: nat)
    | Expire(who: nat)
    | Conclude(who: nat)
    | Leave(who: nat)
    | Issue(flight: nat)
    | Record(flight: nat, refusal: Option<nat>)
    | Land(flight: nat)

  const INIT := Handshake(None, false, None, [], 0, map[])

  function PcOf(h: Handshake, c: nat): Pc {
    if c in h.pcs then h.pcs[c] else Outside
  }

  function Move(h: Handshake, c: nat, pc: Pc): Handshake {
    h.(pcs := h.pcs[c := pc])
  }

  function Fly(h: Handshake, f: nat, to: Flight): Handshake
    requires f < |h.flights|
  {
    h.(flights := h.flights[f := to])
  }

  /** A step that is not enabled changes nothing. Each critical section is one step. */
  function Next(h: Handshake, l: Label): Handshake {
    match l
    case Enter(c) =>
      if !PcOf(h, c).Outside? then h
      else if h.enabled then Move(h, c, Returned(Enabled))
      else if h.err.Some? then Move(h, c, Returned(Refused(h.err.value)))
      else if h.inFlight.Some? then Move(h, c, Waiting(h.inFlight.value))
      else Move(h, c, Waiting(|h.flights|)).(inFlight := Some(|h.flights|), flights := h.flights + [Spawned])
    case Wake(c) =>
      var pc := PcOf(h, c);
      if pc.Waiting? && pc.wait < |h.flights| && h.flights[pc.wait] == Landed then Move(h, c, Woken) else h
    case Expire(c) =>
      if PcOf(h, c).Waiting? then Move(h, c, Returned(Expired)) else h
    case Conclude(c) =>
      if !PcOf(h, c).Woken? then h
      else Move(h, c, Returned(if h.err.Some? then Refused(h.err.value) else if h.enabled then Enabled else WasReset))
    case Leave(c) =>
      if PcOf(h, c).Returned? then Move(h, c, Outside) else h
    case Issue(f) =>
      if f < |h.flights| && h.flights[f] == Spawned then Fly(h, f, Calling).(issued := h.issued + 1) else h
    case Record(f, refusal) =>
      if f < |h.flights| && h.flights[f] == Calling
      then Fly(h, f, Recorded).(err := if refusal.Some? then refusal else h.err,
                                enabled := h.enabled || refusal.None?, inFlight := None)
      else h
    case Land(f) =>
      if f < |h.flights| && h.flights[f] == Recorded then Fly(h, f, Landed) else h
  }

  function Play(h: Handshake, run: seq<Label>): Handshake {
    if run == [] then h else Next(Play(h, run[..|run| - 1]), run[|run| - 1])
  }

  // ----- the invariant

  /** There is at most one attempt ever, and the bookkeeping says how far it has come. */
  ghost predicate OneAttempt(h: Handshake) {
    if h.flights == [] then h.inFlight.None? && !h.enabled && h.err.None? && h.issued == 0
    else
      && |h.flights| == 1
      && h.issued == (if h.flights[0] == Spawned then 0 else 1)
      && if h.flights[0] == Spawned || h.flights[0] == Calling
         then h.inFlight == Some(0) && !h.enabled && h.err.None?
         else h.inFlight.None? && h.enabled == h.err.None?
  }

  ghost predicate CallerHolds(h: Handshake, pc: Pc) {
    match pc
    case Outside => true
    case Waiting(w) => w < |h.flights|
    case Woken => h.flights == [Landed]
    case Returned(answer) =>
      match answer
      case Enabled => h.enabled
      case Refused(e) => h.err == Some(e)
      case Expired => h.flights != []
      case WasReset => false
  }

  ghost predicate Inv(h: Handshake) {
    OneAttempt(h) && forall c: nat :: CallerHolds(h, PcOf(h, c))
  }

  lemma StepKeeps(h: Handshake, l: Label)
    requires Inv(h)
    ensures Inv(Next(h, l))
    ensures h.enabled ==> Next(h, l).enabled
    ensures h.err.Some? ==> Next(h, l).err == h.err
  {
    var t := Next(h, l);
    assert (l.Enter? || l.Wake? || l.Expire? || l.Conclude? || l.Leave?) ==> CallerHolds(h, PcOf(h, l.who));
    forall c: nat
      ensures CallerHolds(t, PcOf(t, c))
    {
      assert CallerHolds(h, PcOf(h, c));
    }
  }

  lemma {:induction false} EveryScheduleKeeps(run: seq<Label>)
    ensures Inv(Play(INIT, run))
  {
    if run != [] {
      EveryScheduleKeeps(run[..|run| - 1]);
      StepKeeps(Play(INIT, run[..|run| - 1]), run[|run| - 1]);
    }
  }

  // ----- what every caller may rely on

  /** However the callers interleave, one Confirm RPC at most is ever issued under one bookkeeping. */
  lemma AtMostOneRpc(run: seq<Label>)
    ensures Play(INIT, run).issued <= 1 && |Play(INIT, run).flights| <= 1
  {
    EveryScheduleKeeps(run);
  }

  /** Nil means enabled, an error is the broker's refusal, and the reset branch is never taken. */
  lemma AnswersAreTrue(run: seq<Label>, c: nat)
    requires PcOf(Play(INIT, run), c).Returned?
    ensures var h := Play(INIT, run);
            match PcOf(h, c).answer
            case Enabled => h.enabled && h.err.None? && h.issued == 1
            case Refused(e) => h.err == Some(e) && !h.enabled && h.issued == 1
            case Expired => true
            case WasReset => false
  {
    EveryScheduleKeeps(run);
    assert CallerHolds(Play(INIT, run), PcOf(Play(INIT, run), c));
  }

  /** Success and refusal are permanent, and exclude each other for good. */
  lemma {:induction false} OutcomesArePermanent(run: seq<Label>, more: seq<Label>)
    ensures var h, t := Play(INIT, run), Play(INIT, run + more);
            && (h.enabled ==> t.enabled && t.err.None?)
            && (h.err.Some? ==> t.err == h.err && !t.enabled)
  {
    if more == [] {
      assert run + more == run;
      EveryScheduleKeeps(run);
    } else {
      var k := |more| - 1;
      assert run + more == run + more[..k] + [more[k]];
      assert (run + more[..k] + [more[k]])[..|run + more[..k]|] == run + more[..k];
      OutcomesArePermanent(run, more[..k]);
      EveryScheduleKeeps(run + more[..k]);
      StepKeeps(Play(INIT, run + more[..k]), more[k]);
      EveryScheduleKeeps(run + more);
    }
  }

  /** Two callers answered on one channel never disagree. */
  lemma AnswersAgree(run: seq<Label>, more: seq<Label>, b: nat, c: nat)
    requires PcOf(Play(INIT, run), b) == Returned(Enabled)
    requires PcOf(Play(INIT, run + more), c).Returned?
    ensures PcOf(Play(INIT, run + more), c).answer in {Enabled, Expired}
  {
    AnswersAreTrue(run, b);
    AnswersAreTrue(run + more, c);
    OutcomesArePermanent(run, more);
  }

  // ----- the code

  /** Entering starts an attempt exactly where there is neither an outcome nor one in flight. */
  lemma EnterStarts(h: Handshake, c: nat)
    requires Inv(h) && PcOf(h, c).Outside?
    ensures var t := Next(h, Enter(c));
            && t.enabled == h.enabled && t.err == h.err
            && t.inFlight == (if h.enabled || h.err.Some? || h.inFlight.Some? then h.inFlight else Some(|h.flights|))
            && t.flights == h.flights + (if h.enabled || h.err.Some? || h.inFlight.Some? then [] else [Spawned])
            && PcOf(t, c) == if h.enabled then Returned(Enabled) else if h.err.Some? then Returned(Refused(h.err.value))
                             else Waiting(t.inFlight.value)
  {
  }

  /** One channel's mutex-guarded fields, and the schedule the callers and goroutines follow. */
  class ChannelState {
    var inFlight: Option<nat>
    var enabled: bool
    var err: Option<nat>
    const rivals: nat -> seq<Label>    // what the others do while a caller is not in a critical section
    var ticks: nat
    var h: Handshake
    ghost var run: seq<Label>

    ghost predicate Valid()
      reads this
    {
      && h == Play(INIT, run)
      && inFlight == h.inFlight && enabled == h.enabled && err == h.err
    }

    constructor (rivals: nat -> seq<Label>)
      ensures Valid() && run == [] && h == INIT
    {
      this.rivals := rivals;
      inFlight, enabled, err, ticks, h, run := None, false, None, 0, INIT, [];
    }

    /** The schedule only grew. */
    twostate predicate Later()
      reads this
    {
      && old(run) <= run && (old(enabled) ==> enabled) && (old(err).Some? ==> err == old(err))
    }

    ghost method Note(l: Label)
      requires h == Play(INIT, run)
      modifies this`run
      ensures run == old(run) + [l] && Play(INIT, run) == Next(h, l)
    {
      run := run + [l];
      assert run[..|run| - 1] == old(run);
    }

    /** The critical section on entry: the answer, or the wait channel and whether to start the attempt. */
    method Begin(c: nat) returns (answer: Option<Answer>, wait: nat, starts: bool)
      requires Valid() && PcOf(h, c).Outside?
      modifies this
      ensures Valid() && Later() && run == old(run) + [Enter(c)]
      ensures PcOf(h, c) == if answer.Some? then Returned(answer.value) else Waiting(wait)
      ensures h.flights == old(h).flights + if starts then [Spawned] else []
      ensures answer == if old(enabled) then Some(Enabled)
                        else if old(err).Some? then Some(Refused(old(err).value)) else None
    {
      hide Inv, CallerHolds;
      EveryScheduleKeeps(run);
      EnterStarts(h, c);
      StepKeeps(h, Enter(c));
      Note(Enter(c));
      h := Next(h, Enter(c));
      answer, wait, starts := None, 0, false;
      if enabled {
        return Some(Enabled), 0, false;
      }
      if err.Some? {
        return Some(Refused(err.value)), 0, false;
      }
      if inFlight.None? {
        wait := |h.flights| - 1;
        inFlight := Some(wait);
        starts := true;
      } else {
        wait := inFlight.value;
      }
    }

    /** The goroutine's critical section, once the broker has answered. */
    method Finish(f: nat, refusal: Option<nat>)
      requires Valid() && f < |h.flights| && h.flights[f] == Calling
      modifies this
      ensures Valid() && Later() && run == old(run) + [Record(f, refusal)]
    {
      EveryScheduleKeeps(run);
      StepKeeps(h, Record(f, refusal));
      Note(Record(f, refusal));
      h := Next(h, Record(f, refusal));
      if refusal.Some? {
        err := refusal;
      } else {
        enabled := true;
      }
      inFlight := None;
    }

    /** The critical section on waking. */
    method Settle(c: nat) returns (answer: Answer)
      requires Valid() && PcOf(h, c).Woken?
      modifies this
      ensures Valid() && Later() && run == old(run) + [Conclude(c)]
      ensures PcOf(h, c) == Returned(answer)
    {
      EveryScheduleKeeps(run);
      StepKeeps(h, Conclude(c));
      Note(Conclude(c));
      h := Next(h, Conclude(c));
      if err.Some? {
        return Refused(err.value);
      }
      if !enabled {
        return WasReset;
      }
      return Enabled;
    }

    /** A step that touches none of the guarded fields. */
    method Drift(l: Label)
      requires Valid() && (l.Wake? || l.Expire? || l.Leave? || l.Issue? || l.Land?)
      modifies this
      ensures Valid() && Later() && h == Next(old(h), l)
    {
      Note(l);
      h := Next(h, l);
    }

    method Apply(l: Label)
      requires Valid()
      modifies this
      ensures Valid() && Later()
      ensures forall c: nat :: !Moves(l, c) ==> PcOf(h, c) == PcOf(old(h), c)
    {
      match l {
        case Enter(c) =>
          if PcOf(h, c).Outside? {
            var _, _, _ := Begin(c);
          }
        case Record(f, refusal) =>
          if f < |h.flights| && h.flights[f] == Calling {
            Finish(f, refusal);
          }
        case Conclude(c) =>
          if PcOf(h, c).Woken? {
            var _ := Settle(c);
          }
        case _ => Drift(l);
      }
    }

    method Others(c: nat)
      requires Valid()
      modifies this
      ensures Valid() && Later() && PcOf(h, c) == PcOf(old(h), c)
    {
      var moves := rivals(ticks);
      ticks := ticks + 1;
      for k := 0 to |moves|
        invariant Valid() && Later() && PcOf(h, c) == PcOf(old(h), c)
      {
        if !Moves(moves[k], c) {
          Apply(moves[k]);
        }
      }
    }

    /**
      Enable, as caller `c` runs it amid the others; its context outlasts `patience` looks at the
      wait channel. The error that claims the state was reset is never returned.
     */
    method Enable(c: nat, patience: nat) returns (answer: Answer)
      requires Valid() && PcOf(h, c).Outside?
      modifies this
      ensures Valid() && Later() && h.issued <= 1 && PcOf(h, c).Outside?
      ensures match answer
              case Enabled => enabled && err.None?
              case Refused(e) => err == Some(e) && !enabled
              case Expired => true
              case WasReset => false
      ensures old(enabled) ==> answer == Enabled
      ensures old(err).Some? ==> answer == Refused(old(err).value)
      ensures h.flights != [] && (answer.Expired? && patience > 0 ==> h.flights != [Landed])
    {
      Others(c);
      var first, wait, starts := Begin(c);
      if first.Some? {
        answer := first.value;
      } else {
        answer := Await(c, patience);
      }
      AnswersAreTrue(run, c);
      AnAnswerHasItsAttempt(run, c);
      Drift(Leave(c));
      AtMostOneRpc(run);
    }

    lemma AnAnswerHasItsAttempt(run: seq<Label>, c: nat)
      requires PcOf(Play(INIT, run), c).Returned?
      ensures Play(INIT, run).flights != []
    {
      EveryScheduleKeeps(run);
    }

    method Await(c: nat, patience: nat) returns (answer: Answer)
      requires Valid() && PcOf(h, c).Waiting?
      modifies this
      ensures Valid() && Later() && PcOf(h, c) == Returned(answer)
      ensures answer.Expired? && patience > 0 ==> h.flights != [Landed]
    {
      for look := 0 to patience
        invariant Valid() && Later() && PcOf(h, c).Waiting? && (look > 0 ==> h.flights != [Landed])
      {
        Others(c);
        EveryScheduleKeeps(run);
        var w := PcOf(h, c).wait;
        if w < |h.flights| && h.flights[w] == Landed {
          Drift(Wake(c));
          Others(c);
          answer := Settle(c);
          return;
        }
      }
      Drift(Expire(c));
      return Expired;
    }
  }

  /** Caller `c` itself takes this step. */
  predicate Moves(l: Label, c: nat) {
    (l.Enter? || l.Wake? || l.Expire? || l.Conclude? || l.Leave?) && l.who == c
  }

  // ----- all channels, and the bookkeeping a channel loses when it is forgotten

  datatype Book = Book(channel: nat, h: Handshake)

  /** Every bookkeeping there ever was, and the one each known channel goes by. */
  datatype Shelf = Shelf(current: map<nat, nat>, books: seq<Book>)

  datatype Event =
    | Lookup(ch: nat, closed: set<nat>)   // stateFor, and the channels that are closed by then
    | Work(book: nat, step: Label)        // a caller or goroutine that holds this bookkeeping

  function Advance(t: Shelf, e: Event): Shelf {
    match e
    case Lookup(ch, closed) =>
      if ch in t.current then t
      else Shelf((t.current - closed)[ch := |t.books|], t.books + [Book(ch, INIT)])
    case Work(b, l) =>
      if b < |t.books| then t.(books := t.books[b := t.books[b].(h := Next(t.books[b].h, l))]) else t
  }

  const EMPTY := Shelf(map[], [])

  function Follow(t: Shelf, run: seq<Event>): Shelf {
    if run == [] then t else Advance(Follow(t, run[..|run| - 1]), run[|run| - 1])
  }

  /** The Confirm RPCs issued on a channel, under whatever bookkeeping. */
  function Rpcs(books: seq<Book>, ch: nat): nat {
    if books == [] then 0
    else Rpcs(books[..|books| - 1], ch)
         + if books[|books| - 1].channel == ch then books[|books| - 1].h.issued else 0
  }

  function Books(books: seq<Book>, ch: nat): nat {
    if books == [] then 0
    else Books(books[..|books| - 1], ch) + if books[|books| - 1].channel == ch then 1 else 0
  }

  predicate Forgets(t: Shelf, e: Event, ch: nat) {
    e.Lookup? && e.ch !in t.current && ch in t.current && ch in e.closed
  }

  /** How often the run forgets the channel. */
  function Forgotten(t: Shelf, run: seq<Event>, ch: nat): nat {
    if run == [] then 0
    else Forgotten(t, run[..|run| - 1], ch)
         + if Forgets(Follow(t, run[..|run| - 1]), run[|run| - 1], ch) then 1 else 0
  }

  ghost predicate ShelfHolds(t: Shelf) {
    && (forall b :: 0 <= b < |t.books| ==> Inv(t.books[b].h))
    && (forall ch :: ch in t.current ==> t.current[ch] < |t.books| && t.books[t.current[ch]].channel == ch)
  }

  lemma WorkKeepsCounts(books: seq<Book>, b: nat, h: Handshake, ch: nat)
    requires b < |books|
    ensures Books(books[b := books[b].(h := h)], ch) == Books(books, ch)
  {
    var after := books[b := books[b].(h := h)];
    var n := |books| - 1;
    if b < n {
      WorkKeepsCounts(books[..n], b, h, ch);
      assert after[..n] == books[..n][b := books[..n][b].(h := h)];
    } else {
      assert after[..n] == books[..n];
    }
  }

  /** A channel has one bookkeeping more than it was forgotten, or as many while it is unknown. */
  lemma {:induction false} EveryShelfHolds(run: seq<Event>, ch: nat)
    ensures var t := Follow(EMPTY, run);
            && ShelfHolds(t)
            && Books(t.books, ch) == Forgotten(EMPTY, run, ch) + if ch in t.current then 1 else 0
  {
    if run != [] {
      var init, e := run[..|run| - 1], run[|run| - 1];
      var t := Follow(EMPTY, init);
      hide Inv, Next;
      EveryShelfHolds(init, ch);
      match e
      case Lookup(c, closed) => LookupHolds(t, c, closed, ch);
      case Work(b, l) =>
        if b < |t.books| {
          StepKeeps(t.books[b].h, l);
          WorkKeepsCounts(t.books, b, Next(t.books[b].h, l), ch);
        }
    }
  }

  lemma LookupHolds(t: Shelf, c: nat, closed: set<nat>, ch: nat)
    requires ShelfHolds(t)
    ensures var e := Lookup(c, closed); var u := Advance(t, e);
            && ShelfHolds(u)
            && Books(u.books, ch) - (if ch in u.current then 1 else 0)
               == Books(t.books, ch) - (if ch in t.current then 1 else 0) + (if Forgets(t, e, ch) then 1 else 0)
  {
    hide Inv;
    assert (t.books + [Book(c, INIT)])[..|t.books|] == t.books;
    EveryScheduleKeeps([]);
    assert Play(INIT, []) == INIT;
  }

  lemma {:induction false} OneRpcEach(books: seq<Book>, ch: nat)
    requires forall b :: 0 <= b < |books| ==> Inv(books[b].h)
    ensures Rpcs(books, ch) <= Books(books, ch)
  {
    if books != [] {
      OneRpcEach(books[..|books| - 1], ch);
    }
  }

  ghost predicate Repeats(t: Shelf, more: seq<Event>, ch: nat) {
    Forgotten(t, more, ch) == 0 && Rpcs(Follow(t, more).books, ch) >= 2
  }

  /** No channel sees more RPCs than it was forgotten, and one. */
  lemma RpcsAreBounded(run: seq<Event>, ch: nat)
    ensures Rpcs(Follow(EMPTY, run).books, ch) <= Forgotten(EMPTY, run, ch) + 1
  {
    EveryShelfHolds(run, ch);
    OneRpcEach(Follow(EMPTY, run).books, ch);
  }

  lemma {:induction false} FollowSplits(t: Shelf, run: seq<Event>, more: seq<Event>, ch: nat)
    ensures Follow(t, run + more) == Follow(Follow(t, run), more)
    ensures Forgotten(t, run + more, ch) == Forgotten(t, run, ch) + Forgotten(Follow(t, run), more, ch)
  {
    if more == [] {
      assert run + more == run;
    } else {
      var k := |more| - 1;
      FollowSplits(t, run, more[..k], ch);
      assert (run + more)[..|run + more| - 1] == run + more[..k];
    }
  }

  /** Some caller comes to the bookkeeping, and whatever attempt there is by then goes out. */
  lemma OneRpcGoesOut(h: Handshake)
    requires Inv(h)
    ensures var t := Next(Next(Next(h, Leave(0)), Enter(0)), Issue(0)); Inv(t) && t.issued == 1
  {
    assert CallerHolds(h, PcOf(h, 0));
    StepKeeps(h, Leave(0));
    StepKeeps(Next(h, Leave(0)), Enter(0));
    StepKeeps(Next(Next(h, Leave(0)), Enter(0)), Issue(0));
  }

  function SendRpc(b: nat): seq<Event> { [Work(b, Leave(0)), Work(b, Enter(0)), Work(b, Issue(0))] }

  lemma {:induction false} WorkForgetsNothing(t: Shelf, run: seq<Event>, ch: nat)
    requires forall k :: 0 <= k < |run| ==> run[k].Work?
    ensures Forgotten(t, run, ch) == 0
  {
    if run != [] {
      WorkForgetsNothing(t, run[..|run| - 1], ch);
    }
  }

  lemma FollowThree(t: Shelf, a: Event, b: Event, c: Event)
    ensures Follow(t, [a, b, c]) == Advance(Advance(Advance(t, a), b), c)
  {
    hide Advance;
    assert [a, b, c][..2] == [a, b] && [a, b][..1] == [a] && [a][..0] == [];
    assert Follow(t, [a]) == Advance(t, a);
    assert Follow(t, [a, b]) == Advance(Advance(t, a), b);
  }

  lemma BookIssues(t: Shelf, b: nat, ch: nat)
    requires ShelfHolds(t) && b < |t.books|
    ensures var u := Follow(t, SendRpc(b));
            && ShelfHolds(u) && u.current == t.current && |u.books| == |t.books| && u.books[b].h.issued == 1
            && (forall k :: 0 <= k < |t.books| ==> u.books[k].channel == t.books[k].channel)
            && (forall k :: 0 <= k < |t.books| && k != b ==> u.books[k] == t.books[k])
            && Forgotten(t, SendRpc(b), ch) == 0
  {
    hide Next, Inv;
    var run := SendRpc(b);
    var one := Advance(t, run[0]);
    var two := Advance(one, run[1]);
    FollowThree(t, run[0], run[1], run[2]);
    assert run == [run[0], run[1], run[2]] && Follow(t, run) == Advance(two, run[2]);
    OneRpcGoesOut(t.books[b].h);
    WorkForgetsNothing(t, run, ch);
  }

  lemma {:induction false} BooksOf(books: seq<Book>, ch: nat) returns (b: nat)
    requires Books(books, ch) > 0
    ensures b < |books| && books[b].channel == ch
    ensures Books(books[..b], ch) == Books(books, ch) - 1
  {
    var n := |books| - 1;
    if books[n].channel == ch {
      b := n;
    } else {
      b := BooksOf(books[..n], ch);
      assert books[..n][..b] == books[..b];
    }
  }

  lemma {:induction false} RpcsOfOne(books: seq<Book>, ch: nat, b: nat)
    requires b < |books| && books[b].channel == ch && books[b].h.issued >= 1
    ensures Rpcs(books, ch) >= 1
  {
    if b < |books| - 1 {
      RpcsOfOne(books[..|books| - 1], ch, b);
    }
  }

  lemma {:induction false} RpcsOfTwo(books: seq<Book>, ch: nat, a: nat, b: nat)
    requires a < b < |books| && books[a].channel == ch == books[b].channel
    requires books[a].h.issued >= 1 && books[b].h.issued >= 1
    ensures Rpcs(books, ch) >= 2
  {
    var n := |books| - 1;
    if b < n {
      RpcsOfTwo(books[..n], ch, a, b);
    } else {
      RpcsOfOne(books[..n], ch, a);
    }
  }

  /** Once forgotten, the next caller to look the channel up and one that still holds it issue two. */
  lemma ForgottenRepeats(run: seq<Event>, ch: nat) returns (more: seq<Event>)
    requires Forgotten(EMPTY, run, ch) > 0
    ensures Repeats(Follow(EMPTY, run), more, ch)
  {
    hide Inv;
    var t := Follow(EMPTY, run);
    var known := run + [Lookup(ch, {})];
    FollowSplits(EMPTY, run, [Lookup(ch, {})], ch);
    EveryShelfHolds(known, ch);
    var u := Follow(EMPTY, known);
    assert [Lookup(ch, {})][..0] == [];
    assert Forgotten(t, [Lookup(ch, {})], ch) == 0 && ch in u.current;
    var b := BooksOf(u.books, ch);
    var a := BooksOf(u.books[..b], ch);
    BookIssues(u, a, ch);
    BookIssues(Follow(u, SendRpc(a)), b, ch);
    FollowSplits(u, SendRpc(a), SendRpc(b), ch);
    FollowSplits(t, [Lookup(ch, {})], SendRpc(a) + SendRpc(b), ch);
    more := [Lookup(ch, {})] + (SendRpc(a) + SendRpc(b));
    RpcsOfTwo(Follow(t, more).books, ch, a, b);
  }

  /**
    A second RPC on one channel: without forgetting the channel again it can come, now or later, if
    and only if the channel was forgotten.
   */
  lemma SecondRpcExactlyOnceForgotten(run: seq<Event>, ch: nat)
    ensures (exists more :: Repeats(Follow(EMPTY, run), more, ch)) <==> Forgotten(EMPTY, run, ch) > 0
  {
    forall more | Repeats(Follow(EMPTY, run), more, ch)
      ensures Forgotten(EMPTY, run, ch) > 0
    {
      FollowSplits(EMPTY, run, more, ch);
      RpcsAreBounded(run + more, ch);
    }
    if Forgotten(EMPTY, run, ch) > 0 {
      var more := ForgottenRepeats(run, ch);
    }
  }

  /** The bookkeeping of every live channel. */
  class Confirms {
    const rivals: nat -> seq<Label>
    var state: map<nat, ChannelState>
    ghost var shelf: Shelf

    /** The map knows the channels the shelf does. */
    ghost predicate Valid()
      reads this
    {
      state.Keys == shelf.current.Keys
    }

    constructor (rivals: nat -> seq<Label>)
      ensures Valid() && state == map[] && shelf == EMPTY
    {
      this.rivals, state, shelf := rivals, map[], EMPTY;
    }

    /** A known channel keeps its state; a new one gets its own, and retired channels are forgotten. */
    method StateFor(ch: nat, closed: set<nat>) returns (st: ChannelState)
      requires Valid()
      modifies this`state, this`shelf
      ensures Valid() && shelf == Advance(old(shelf), Lookup(ch, closed))
      ensures ch in state && state[ch] == st
      ensures ch in old(state) ==> state == old(state)
      ensures ch !in old(state) ==>
                && fresh(st) && st.Valid() && st.h == INIT
                && state.Keys == old(state).Keys - closed + {ch}
                && forall other :: other in state && other != ch ==> state[other] == old(state)[other]
    {
      shelf := Advance(shelf, Lookup(ch, closed));
      if ch in state {
        return state[ch];
      }
      state := state - closed;
      st := new ChannelState(rivals);
      state := state[ch := st];
    }
  }
}
