/**
  The stream runtime's pass over the change stream, and the loop that drives it. Method bodies hide
  the definitions they need only by name, which keeps each proof small.
 */
module StreamRelays {
  import opened Prelude
  import opened StreamProtocol
  import opened StreamTheorems
  import opened StreamClusters
  import opened StuckLanes
  import opened Journals
  import Lanes
  import TokenStores
  import opened TokenKeys

  const ZERO_TIME := TokenStores.ZERO_TIME

  const STREAM_FAULTS := {Invalidated, HistoryLost, StreamFault}

  /** The commit time a parked event saves with: never before what this window has reached. */
  function Floored(lastCT: int, committedCT: int, ct: int): (t: int)
    ensures t in {ct, lastCT, committedCT}
    ensures lastCT != ZERO_TIME ==> t >= lastCT && t >= ct && t in {lastCT, ct}
    ensures lastCT >= ZERO_TIME && committedCT > ZERO_TIME ==> t > ZERO_TIME
  {
    if ct > lastCT then ct else if lastCT == ZERO_TIME then committedCT else lastCT
  }

  /** Events [start, safe) are disposed of, and the last of them left its token and time. */
  ghost predicate Held(event: nat -> Change, confirmed: set<nat>, start: nat, safe: nat, token: string, time: int) {
    && start <= safe
    && (forall e: nat :: start <= e < safe ==> e in confirmed)
    && (start < safe ==> Left(event(safe - 1), token, time))
  }

  predicate Left(c: Change, token: string, time: int) {
    token == c.token && (c.decodes ==> time == c.time)
  }

  /**
    With nothing advanced in the window a parked event's own time is taken however old it is: the
    time falls below the committed one exactly when the event's is set and older.
   */
  lemma FlooredFallsBackExactly(committedCT: int, ct: int)
    ensures Floored(ZERO_TIME, committedCT, ct) < committedCT <==> ZERO_TIME < ct < committedCT
  {
  }

  /**
    The store then refuses that save, unless both tokens are keyed and their keys ascend: the stored
    position stays before the parked event, and the next open comes back to it.
   */
  lemma FallenSaveIsRefusedExactly(row: TokenStores.TokenRow<string>, token: string, key: Option<string>, ct: int)
    requires row.time.Some? && ZERO_TIME < ct < row.time.value
    ensures var (after, persisted) := TokenStores.Saved(Some(row), token, key, Floored(ZERO_TIME, row.time.value, ct));
            && (persisted <==> row.key.Some? && key.Some? && TextLe(row.key.value, key.value))
            && (!persisted ==> after == Some(row))
  {
    FlooredFallsBackExactly(row.time.value, ct);
  }

  /** How one turn of a window ends. */
  datatype Turn = Advanced | Halted | RanOut | Broken

  // ----- what a window comes to when every event meets a fixed fate

  /** How the lane takes an event whose send is call `k`. */
  function TurnOf(hooks: Lanes.Hooks, verdict: (nat, string) -> Lanes.Verdict, parks: (nat, string) -> bool, k: nat,
                  c: Change, dead: bool): (t: Turn)
    ensures !t.RanOut? && (t.Broken? ==> !c.decodes) && (t.Halted? ==> c.decodes)
  {
    if c.decodes then
      var d := Lanes.Judge(hooks, verdict(k, StuckKey(c)), dead, parks(k + 1, StuckKey(c)));
      if d.Sent? || d.Parked? then Advanced else Halted
    else if c.token != "" && hooks.poison && !dead && parks(k, StuckKey(c)) then Advanced
    else Broken
  }

  /** Where a window has come to: its position, the last token and time, and how its last turn ended. */
  datatype Progress = Progress(reached: nat, token: string, time: int, turn: Turn)

  /** A window: where it started, with which committed time, how many events it was served and how far it came. */
  datatype Window = Window(start: nat, committed: int, served: nat, reached: nat)

  /** A pass: whether it led, what it answered, and its window if it had its stream. */
  datatype Pass = Pass(led: bool, err: set<Fault>, window: Option<Window>)

  /** The events the passes were served. */
  function ServedIn(passes: seq<Pass>): nat {
    if passes == [] then 0
    else
      var last := passes[|passes| - 1];
      ServedIn(passes[..|passes| - 1]) + if last.window.Some? then last.window.value.served else 0
  }

  /** The first `n` events from `start` on, each in turn up to the first that does not advance. */
  function WindowResult(hooks: Lanes.Hooks, verdict: (nat, string) -> Lanes.Verdict, parks: (nat, string) -> bool,
                        k: nat, event: nat -> Change, committedCT: int, start: nat, n: nat): (w: Progress)
    ensures start <= w.reached <= start + n && (w.turn.Advanced? <==> w.reached == start + n)
  {
    if n == 0 then Progress(start, "", ZERO_TIME, Advanced)
    else
      var w := WindowResult(hooks, verdict, parks, k, event, committedCT, start, n - 1);
      var c := event(start + n - 1);
      var turn := TurnOf(hooks, verdict, parks, k, c, false);
      if !w.turn.Advanced? then w
      else if !turn.Advanced? then w.(turn := turn)
      else Progress(start + n, c.token, if c.decodes then c.time else Floored(w.time, committedCT, c.time), Advanced)
  }

  lemma HeldStays(event: nat -> Change, before: set<nat>, after: set<nat>, start: nat, safe: nat, token: string,
                  time: int)
    requires Held(event, before, start, safe, token, time) && before <= after
    ensures Held(event, after, start, safe, token, time)
  {
  }

  lemma HeldGrows(event: nat -> Change, before: set<nat>, after: set<nat>, start: nat, safe: nat, token: string,
                  time: int, newToken: string, newTime: int)
    requires Held(event, before, start, safe, token, time) && before <= after && safe in after
    requires Left(event(safe), newToken, newTime)
    ensures Held(event, after, start, safe + 1, newToken, newTime)
  {
  }

  lemma HeldNothing(event: nat -> Change, confirmed: set<nat>, start: nat, token: string, time: int)
    ensures Held(event, confirmed, start, start, token, time)
  {
  }

  class Relay {
    const cluster: Cluster
    const lane: Lanes.Lane<string>
    const tokenBatchSize: nat
    var streaming: bool            // a stream is open
    var lastSavedTok: string
    var committedCT: int
    var baselineTok: string
    var baselineCT: int

    ghost predicate Sound()
      reads this, cluster, cluster.store, lane, lane.tracker
    {
      && cluster.Valid()
      && lane.Valid()
      && lane.hooks.Validated()
      && (forall k: string :: lane.Identifies(k) == (k != ""))
      && tokenBatchSize > 0
      && streaming == cluster.Cur().Open?
      && Remembers(baselineTok)
      && (lastSavedTok == "" || lastSavedTok in cluster.sys.stored)
    }

    /** The protocol's deliveries by this process are the downstream's own record. */
    ghost predicate Valid()
      reads this, cluster, cluster.store, lane, lane.tracker, lane.downstream
    {
      Sound() && lane.downstream.log == Whats(cluster.delivered)
    }

    /** The in-memory baseline is the protocol's. */
    ghost predicate Remembers(token: string)
      reads cluster
    {
      cluster.Here().baseline == if token == "" then None else Some(cluster.site.place(token))
    }

    /** No open stream has passed an event that was not disposed of. */
    predicate Rested()
      reads this, cluster
    {
      streaming ==> Clean(cluster.Cur())
    }

    /** Still valid, later in the same protocol run, and the lease was not asked for. */
    twostate predicate Went()
      reads this, cluster, cluster.store, lane, lane.tracker, lane.downstream
    {
      Valid() && cluster.Later(old(cluster.sys), old(cluster.run)) && cluster.elections == old(cluster.elections)
      && old(cluster.ticks) <= cluster.ticks
    }

    /** The latest save was tried without a token. */
    ghost predicate Blank()
      reads cluster
    {
      cluster.attempt.Some? && cluster.attempt.value.token == ""
    }

    /** What the stream reported and the store was asked stayed as they were. */
    twostate predicate Quiet()
      reads cluster
    {
      && cluster.fatal == old(cluster.fatal) && cluster.attempt == old(cluster.attempt)
      && cluster.answer == old(cluster.answer) && cluster.head == old(cluster.head) && cluster.anew == old(cluster.anew)
      && cluster.pulls == old(cluster.pulls)
    }

    constructor (cluster: Cluster, lane: Lanes.Lane<string>, tokenBatchSize: nat)
      requires cluster.Valid() && cluster.Here() == Local(None, Closed)
      requires lane.Valid() && lane.hooks.Validated() && tokenBatchSize > 0
      requires lane.downstream.log == Whats(cluster.delivered)
      requires forall k: string :: lane.Identifies(k) == (k != "")
      ensures Valid() && Rested() && !streaming && this.cluster == cluster && this.lane == lane
    {
      this.cluster, this.lane, this.tokenBatchSize := cluster, lane, tokenBatchSize;
      streaming, lastSavedTok, committedCT, baselineTok, baselineCT := false, "", ZERO_TIME, "", ZERO_TIME;
    }

    // ----- the position

    /**
      The trackers move, and the baseline goes, only once the store confirms the save. The
      position saved is the cursor's safe one or its head, whichever `at` is.
     */
    method SaveToken(token: string, time: int, ghost at: nat) returns (ok: bool)
      requires Valid() && streaming && (at == cluster.Cur().safe || at == cluster.Cur().next)
      requires token != "" ==> cluster.site.place(token) == at
      modifies this`lastSavedTok, this`committedCT, this`baselineTok, this`baselineCT, cluster, cluster.store
      ensures Went() && cluster.Cur() == old(cluster.Cur())
      ensures at == cluster.Cur().safe ==> cluster.StaysTidy(old(cluster.run))
      ensures cluster.attempt == Some(Attempt(at, token, time)) && ok == cluster.answer.Ok?
      ensures cluster.fatal == old(cluster.fatal)
      ensures cluster.head == old(cluster.head) && cluster.anew == old(cluster.anew)
      ensures baselineTok == old(baselineTok) || (ok && baselineTok == "" && lastSavedTok == token)
      ensures (lastSavedTok == old(lastSavedTok) && committedCT == old(committedCT))
              || (ok && lastSavedTok == token && committedCT == time && baselineTok == ""
                  && Stored(cluster.site, cluster.sys) == Some(at))
      ensures if cluster.answer == Ok(true) then lastSavedTok == token && committedCT == time && baselineTok == ""
              else lastSavedTok == old(lastSavedTok) && committedCT == old(committedCT)
                   && baselineTok == old(baselineTok) && baselineCT == old(baselineCT)
      ensures cluster.pulls == old(cluster.pulls)
      ensures !ok ==> token == "" || cluster.FailedSince(old(cluster.ticks))
    {
      hide Lanes.Lane.Valid, Cluster.Valid, Whats, Tidy, Play, Next;
      var persisted := cluster.SaveToken(token, time, at);
      if persisted.Err? {
        return false;
      }
      if persisted.value {
        lastSavedTok, committedCT := token, time;
        baselineTok, baselineCT := "", ZERO_TIME;
      }
      return true;
    }

    method CloseStream()
      requires Valid()
      modifies this`streaming, cluster, cluster.store
      ensures Went() && Quiet() && !streaming && cluster.StaysTidy(old(cluster.run))
      ensures cluster.sys.row == old(cluster.sys.row)
    {
      hide Lanes.Lane.Valid, Cluster.Valid, Whats, Tidy, Play, Next;
      if streaming {
        cluster.Close();
        streaming := false;
      }
    }

    // ----- opening

    /** A fresh start's baseline is remembered before it is saved: the save is what may fail. */
    method Anchor() returns (ok: bool)
      requires Valid() && streaming && Rested()
      modifies this`lastSavedTok, this`committedCT, this`baselineTok, this`baselineCT, cluster, cluster.store
      ensures Went() && Rested() && cluster.StaysTidy(old(cluster.run))
      ensures cluster.fatal == old(cluster.fatal) && cluster.anew == old(cluster.anew)
      ensures ok <==> cluster.head == "" || cluster.answer.Ok?
      ensures cluster.head != "" ==> TriedHead(cluster.Cur().safe)
      ensures !ok ==> cluster.Here().baseline == Some(cluster.Cur().safe) && cluster.FailedSince(old(cluster.ticks))
      ensures cluster.pulls == old(cluster.pulls)
    {
      hide Lanes.Lane.Valid, Cluster.Valid, Whats, Tidy, Play, Next;
      var btok, bct := cluster.Checkpoint();
      if btok == "" {
        return true;
      }
      cluster.Remember();
      baselineTok, baselineCT := btok, bct;
      ok := SaveToken(btok, bct, cluster.Cur().safe);
    }

    /**
      Resumes from the stored token, or else from the baseline, or else starts fresh. Only a token
      that came from the store is taken for one already saved.
     */
    method Reopen() returns (err: set<Fault>, atNow: bool)
      requires Valid() && !streaming
      modifies this, cluster, cluster.store
      ensures cluster.pulls == old(cluster.pulls) && (err != {} ==> cluster.FailedSince(old(cluster.ticks)))
      ensures Went() && Rested() && cluster.StaysTidy(old(cluster.run))
      ensures cluster.fatal == old(cluster.fatal) + err * FATAL && LaneStopped !in err
      ensures (err == {} <==> streaming) && (streaming ==> atNow == cluster.anew)
      ensures streaming && old(baselineTok) != "" ==> !cluster.anew
      ensures streaming ==>
                && lastSavedTok == cluster.loaded.0
                && committedCT == if cluster.loaded.0 == "" && old(baselineTok) != "" then old(baselineCT)
                                  else cluster.loaded.1
    {
      hide Lanes.Lane.Valid, Cluster.Valid, Whats, Tidy, Play, Next;
      var loaded := cluster.LoadToken();
      if loaded.Err? {
        return {StoreFault}, false;
      }
      var stored := loaded.value.0;
      var token, ct := stored, loaded.value.1;
      if token == "" && baselineTok != "" {
        token, ct := baselineTok, baselineCT;
      }
      err, atNow := WatchFrom(token, ct, stored);
    }

    /** The tail of the opening: the change stream itself, and the trackers once it is open. */
    method WatchFrom(token: string, ct: int, stored: string) returns (err: set<Fault>, atNow: bool)
      requires Valid() && !streaming && (stored == "" || stored in cluster.sys.stored)
      requires cluster.Cur() == Loaded(if token == "" then None else Some(cluster.site.place(token)))
      modifies this`streaming, this`committedCT, this`lastSavedTok, cluster, cluster.store
      ensures cluster.pulls == old(cluster.pulls) && (err != {} ==> cluster.FailedSince(old(cluster.ticks)))
      ensures Went() && Rested() && cluster.StaysTidy(old(cluster.run)) && cluster.loaded == old(cluster.loaded)
      ensures cluster.fatal == old(cluster.fatal) + err * FATAL && LaneStopped !in err
      ensures (err == {} <==> streaming)
      ensures streaming ==> atNow == cluster.anew == (token == "") && lastSavedTok == stored && committedCT == ct
    {
      hide Lanes.Lane.Valid, Cluster.Valid, Whats, Tidy, Play, Next;
      var fault := cluster.Watch(token);
      if fault.Some? {
        return {fault.value}, false;
      }
      streaming := true;
      committedCT := ct;
      lastSavedTok := stored;
      return {}, token == "";
    }

    /** Opens the stream, and gives a fresh start its baseline before anything is drained. */
    method OpenStream() returns (err: set<Fault>)
      requires Valid() && !streaming
      modifies this, cluster, cluster.store
      ensures cluster.pulls == old(cluster.pulls) && (err != {} ==> cluster.FailedSince(old(cluster.ticks)))
      ensures Went() && Rested() && cluster.StaysTidy(old(cluster.run))
      ensures cluster.fatal == old(cluster.fatal) + err * FATAL && LaneStopped !in err
      ensures err == {} ==> streaming
      ensures streaming && old(baselineTok) != "" ==> !cluster.anew
      ensures streaming && !cluster.anew ==>
                && lastSavedTok == cluster.loaded.0
                && committedCT == if cluster.loaded.0 == "" && old(baselineTok) != "" then old(baselineCT)
                                  else cluster.loaded.1
      ensures streaming && cluster.anew ==> (err == {} <==> cluster.head == "" || cluster.answer.Ok?)
      ensures streaming && cluster.anew && cluster.head != "" ==> TriedHead(cluster.Cur().safe)
      ensures streaming && err != {} ==>
                && cluster.anew && err == {StoreFault}
                && cluster.Here().baseline == Some(cluster.Cur().safe)
    {
      hide Lanes.Lane.Valid, Cluster.Valid, Whats, Tidy, Play, Next;
      var atNow;
      err, atNow := Reopen();
      if err == {} && atNow {
        var ok := Anchor();
        if !ok {
          return {StoreFault};
        }
      }
    }

    // ----- one window

    /** Valid but for what the downstream has recorded since its first `seen` events. */
    ghost predicate Behind(seen: nat)
      reads this, cluster, cluster.store, lane, lane.tracker, lane.downstream
    {
      && Sound()
      && seen <= |lane.downstream.log| && lane.downstream.log[..seen] == Whats(cluster.delivered)
    }

    /** The protocol takes over what happened downstream to the event just served. */
    method CatchUp(seen: nat)
      requires Behind(seen) && cluster.Cur().Open? && cluster.Cur().safe < cluster.Cur().next
      requires forall k :: seen <= k < |lane.downstream.log| ==>
                 lane.downstream.log[k].pos == StuckKey(cluster.event(cluster.Cur().next - 1))
      requires forall k :: seen <= k < |lane.downstream.log| - 1 ==> lane.downstream.log[k].Reached?
      modifies cluster, cluster.store
      ensures Went() && Quiet() && cluster.StaysTidy(old(cluster.run)) && old(cluster.ticks) <= cluster.ticks
      ensures var settled := Settles(lane.downstream.log[seen..]);
              && cluster.Cur() == (if settled then Cursor.Open(old(cluster.Cur().next), old(cluster.Cur().next))
                                   else old(cluster.Cur()))
              && (settled ==> old(cluster.Cur().next) - 1 in cluster.sys.confirmed)
    {
      hide Lanes.Lane.Valid, Cluster.Valid, Whats, Tidy, Play, Next;
      var news := lane.downstream.log[seen..];
      assert lane.downstream.log == lane.downstream.log[..seen] + news;
      cluster.Mirror(news);
    }

    /** The event just served goes to the lane, and what came of it into the protocol. */
    method Offer(ctx: Lanes.Context, c: Change) returns (d: Lanes.Disposition)
      requires Valid() && streaming && cluster.Cur().safe < cluster.Cur().next
      requires c == cluster.event(cluster.Cur().next - 1)
      modifies cluster, cluster.store, lane, lane.downstream, lane.downstream.journal, lane.tracker, lane.clock, ctx
      ensures Went() && Quiet() && cluster.StaysTidy(old(cluster.run)) && old(cluster.ticks) <= cluster.ticks
      ensures old(lane.downstream.calls) < lane.downstream.calls && (old(ctx.Live()) ==> ctx.Live())
      ensures d == Lanes.Judge(lane.hooks, lane.downstream.verdict(old(lane.downstream.calls), StuckKey(c)), ctx.dead,
                               lane.downstream.parks(old(lane.downstream.calls) + 1, StuckKey(c)))
      ensures cluster.Cur() == if d.Sent? || d.Parked?
                               then Cursor.Open(old(cluster.Cur().next), old(cluster.Cur().next))
                               else old(cluster.Cur())
      ensures d.Sent? || d.Parked? ==> old(cluster.Cur().next) - 1 in cluster.sys.confirmed
      ensures d.Sent? || d.Parked? || ctx.dead || lane.EndsStuck()
    {
      hide Lanes.Lane.Valid, Cluster.Valid, Lanes.SendEvents, Lanes.Parking, Whats, Tidy;
      var key := StuckKey(c);
      var seen := |lane.downstream.log|;
      d := lane.Send(ctx, key);
      ghost var v := lane.downstream.verdict(old(lane.downstream.calls), key);
      ghost var events := Lanes.SendEvents(v, key) + Lanes.Parking(lane.hooks, d, key);
      OneFate(v, lane.hooks, d, key);
      assert lane.downstream.log[seen..] == events && lane.downstream.log[..seen] == old(lane.downstream.log);
      CatchUp(seen);
    }

    /** A poison event leaves the lane only with a token to resume from and a confirmed park. */
    method ParkPoison(ctx: Lanes.Context, c: Change) returns (parked: bool, failed: bool)
      requires Valid() && streaming && cluster.Cur().safe < cluster.Cur().next
      requires c == cluster.event(cluster.Cur().next - 1)
      modifies cluster, cluster.store, lane.downstream, lane.downstream.journal, lane.tracker, ctx
      ensures Went() && Quiet() && cluster.StaysTidy(old(cluster.run)) && old(cluster.ticks) <= cluster.ticks
      ensures cluster.Cur() == if parked then Cursor.Open(old(cluster.Cur().next), old(cluster.Cur().next))
                               else old(cluster.Cur())
      ensures parked ==> old(cluster.Cur().next) - 1 in cluster.sys.confirmed
      ensures parked ==> Lanes.ParkConfirmed(StuckKey(c)) in lane.downstream.log
      ensures c.token != "" && lane.hooks.poison && !ctx.dead ==> parked || failed
      ensures parked || failed ==> c.token != "" && lane.hooks.poison && !(parked && failed) && !old(ctx.dead)
      ensures parked || failed ==> parked == lane.downstream.parks(old(lane.downstream.calls), StuckKey(c)) && !ctx.dead
      ensures old(lane.downstream.calls) <= lane.downstream.calls && (old(ctx.Live()) ==> ctx.Live())
    {
      hide Lanes.Lane.Valid, Cluster.Valid, Whats, Tidy, Play, Next;
      parked, failed := false, false;
      if c.token != "" && lane.hooks.poison {
        var dead := ctx.Err();
        if !dead {
          var key := StuckKey(c);
          var seen := |lane.downstream.log|;
          var ok := lane.Park(key);
          ghost var events := if ok then [Lanes.ParkConfirmed(key)] else [];
          assert lane.downstream.log[seen..] == events && lane.downstream.log[..seen] == old(lane.downstream.log);
          assert ok ==> lane.downstream.log[seen] == Lanes.ParkConfirmed(key);
          CatchUp(seen);
          parked, failed := ok, !ok;
        }
      }
    }

    /** Every poison event the lane cannot get past counts as stuck there. */
    method PassPoison(ctx: Lanes.Context, c: Change) returns (err: set<Fault>)
      requires Valid() && streaming && cluster.Cur().safe < cluster.Cur().next
      requires c == cluster.event(cluster.Cur().next - 1)
      modifies cluster, cluster.store, lane, lane.downstream, lane.downstream.journal, lane.tracker, lane.clock, ctx
      ensures Went() && Quiet() && cluster.StaysTidy(old(cluster.run)) && old(cluster.ticks) <= cluster.ticks
      ensures cluster.Cur() == if err == {} then Cursor.Open(old(cluster.Cur().next), old(cluster.Cur().next))
                               else old(cluster.Cur())
      ensures err == {} ==>
                && c.token != "" && lane.hooks.poison
                && old(cluster.Cur().next) - 1 in cluster.sys.confirmed
                && Lanes.ParkConfirmed(StuckKey(c)) in lane.downstream.log
      ensures err in {{}, {Undecodable}, {Undecodable, ParkFault}} && (old(ctx.dead) ==> err == {Undecodable})
      ensures err == {} <==> c.token != "" && lane.hooks.poison && !ctx.dead
                             && lane.downstream.parks(old(lane.downstream.calls), StuckKey(c))
      ensures old(lane.downstream.calls) <= lane.downstream.calls && (old(ctx.Live()) ==> ctx.Live())
      ensures ParkFault in err <==> err != {} && c.token != "" && lane.hooks.poison && !ctx.dead
      ensures err != {} ==> lane.EndsStuck()
    {
      hide Lanes.Lane.Valid, Cluster.Valid, Whats, Tidy, Play, Next;
      var parked, failed := ParkPoison(ctx, c);
      if parked {
        return {};
      }
      lane.Stuck(StuckKey(c));
      return if failed then {Undecodable, ParkFault} else {Undecodable};
    }

    /** The latest save tried to write the latest checkpoint, at `p`. */
    ghost predicate TriedHead(p: nat)
      reads cluster
    {
      cluster.attempt.Some? && cluster.attempt.value.place == p && cluster.attempt.value.token == cluster.head
    }

    /** The latest save tried to write the position just after event `p - 1`, with its own token. */
    ghost predicate TriedAt(p: nat)
      reads cluster
    {
      && p > 0 && cluster.attempt.Some?
      && cluster.attempt.value.place == p
      && Left(cluster.event(p - 1), cluster.attempt.value.token, cluster.attempt.value.time)
    }

    /**
      The window has come from `start` to `reached`, past events disposed of one after another, and
      holds the last one's token and time; the cursor's safe position is there if it has moved.
     */
    ghost predicate Holding(start: nat, reached: nat, token: string, time: int)
      reads cluster
    {
      && cluster.Cur().Open?
      && Held(cluster.event, cluster.sys.confirmed, start, reached, token, time)
      && (reached > start ==> cluster.Cur().safe == reached)
    }

    /** An idle window leaves its checkpoint saved, or tried, unless there is none. */
    ghost predicate IdleSaved(at: nat)
      reads this, cluster
    {
      cluster.head == "" || cluster.head == lastSavedTok || TriedHead(at)
    }

    /** Saves the position of what was disposed of before a fault, if anything was. */
    method SavePrefix(advanced: bool, lastTok: string, lastCT: int, ghost start: nat, ghost reached: nat)
      returns (err: set<Fault>)
      requires Valid() && streaming && Holding(start, reached, lastTok, lastCT) && advanced == (reached > start)
      modifies this`lastSavedTok, this`committedCT, this`baselineTok, this`baselineCT, cluster, cluster.store
      ensures cluster.pulls == old(cluster.pulls)
      ensures StoreFault in err ==> Blank() || cluster.FailedSince(old(cluster.ticks))
      ensures Went() && cluster.Cur() == old(cluster.Cur()) && cluster.StaysTidy(old(cluster.run))
      ensures advanced ==> cluster.attempt == Some(Attempt(reached, lastTok, lastCT))
      ensures advanced ==> TriedAt(reached) && (err == {} <==> cluster.answer.Ok?)
      ensures err in {{}, {StoreFault}} && cluster.fatal == old(cluster.fatal)
      ensures lastSavedTok != old(lastSavedTok) ==> Stored(cluster.site, cluster.sys) == Some(reached)
    {
      hide Lanes.Lane.Valid, Own, MirroredAll, Whats, Recorded, Keyed, Play, Tidy;
      err := {};
      if advanced {
        var ok := SaveToken(lastTok, lastCT, reached);
        if !ok {
          err := {StoreFault};
        }
      }
    }

    /** The last disposed event's position, or an idle window's checkpoint if it is a new one. */
    method SaveWindow(stopped: bool, advanced: bool, caughtUp: bool, lastTok: string, lastCT: int, ghost start: nat,
                      ghost reached: nat)
      returns (ok: bool)
      requires Valid() && streaming && Holding(start, reached, lastTok, lastCT) && advanced == (reached > start)
      requires caughtUp ==> cluster.Cur().next == reached
      requires (stopped || advanced || caughtUp) && !(stopped && caughtUp)
      modifies this`lastSavedTok, this`committedCT, this`baselineTok, this`baselineCT, cluster, cluster.store
      ensures cluster.pulls == old(cluster.pulls)
      ensures !ok ==> Blank() || cluster.FailedSince(old(cluster.ticks))
      ensures Went() && cluster.Cur() == old(cluster.Cur())
      ensures stopped || advanced || Rested() ==> cluster.StaysTidy(old(cluster.run))
      ensures advanced ==> cluster.attempt == Some(Attempt(reached, lastTok, lastCT))
      ensures advanced ==> TriedAt(reached) && ok == cluster.answer.Ok?
      ensures ok && !advanced && !stopped ==> IdleSaved(reached)
      ensures lastSavedTok != old(lastSavedTok) ==> Stored(cluster.site, cluster.sys) == Some(reached)
      ensures cluster.fatal == old(cluster.fatal)
    {
      hide Play, Tidy, StreamProtocol.Next, Lanes.Lane.Valid, Own, MirroredAll, Whats, Recorded, Keyed;
      var cpTok, cpCT := "", ZERO_TIME;
      if caughtUp && !stopped {
        cpTok, cpCT := cluster.Checkpoint();
      }
      ok := true;
      if advanced {
        ok := SaveToken(lastTok, lastCT, reached);
      } else if !stopped && cpTok != "" {
        if cpTok == lastSavedTok {
          committedCT := cpCT;
        } else {
          ok := SaveToken(cpTok, cpCT, reached);
        }
      }
    }

    /** Saves what the window came to; a stopped window gives up its stream as well. */
    method EndWindow(stopped: bool, advanced: bool, caughtUp: bool, lastTok: string, lastCT: int, ghost start: nat,
                     ghost reached: nat)
      returns (err: set<Fault>)
      requires Valid() && streaming && Holding(start, reached, lastTok, lastCT) && advanced == (reached > start)
      requires caughtUp ==> cluster.Cur().next == reached
      requires (stopped || advanced || caughtUp) && !(stopped && caughtUp)
      modifies this, cluster, cluster.store
      ensures cluster.pulls == old(cluster.pulls)
      ensures StoreFault in err ==> Blank() || cluster.FailedSince(old(cluster.ticks))
      ensures Went()
      ensures stopped || advanced || old(Rested()) ==> cluster.StaysTidy(old(cluster.run))
      ensures advanced ==> cluster.attempt == Some(Attempt(reached, lastTok, lastCT))
      ensures advanced ==> TriedAt(reached) && (StoreFault in err <==> cluster.answer.Err?)
      ensures err == {} ==> streaming
      ensures LaneStopped in err ==> err == {LaneStopped} && !streaming
      ensures err in {{}, {LaneStopped}, {StoreFault}} && (err == {LaneStopped} ==> stopped)
      ensures stopped ==> err != {}
      ensures streaming ==> cluster.Cur() == old(cluster.Cur())
      ensures err == {} && !advanced ==> IdleSaved(reached)
      ensures lastSavedTok != old(lastSavedTok) ==> Stored(cluster.site, cluster.sys) == Some(reached)
      ensures cluster.fatal == old(cluster.fatal)
    {
      hide Lanes.Lane.Valid, Cluster.Valid, Whats, Tidy, Play, Next;
      var ok := SaveWindow(stopped, advanced, caughtUp, lastTok, lastCT, start, reached);
      if !ok {
        return {StoreFault};
      }
      if stopped {
        CloseStream();
        return {LaneStopped};
      }
      return {};
    }

    /** One event of the stream, or none. */
    method Pull() returns (r: Served)
      requires Valid() && streaming
      modifies cluster, cluster.store
      ensures Went() && cluster.Cur().Open? && (old(Rested()) ==> cluster.StaysTidy(old(cluster.run)))
      ensures r.Event? || r.Poison? ==>
                && cluster.Cur() == Cursor.Open(old(cluster.Cur().next) + 1, old(cluster.Cur().next))
                && r.change == cluster.event(old(cluster.Cur().next)) && r.change.decodes == r.Event?
      ensures r.Drained? || r.Failed? ==> cluster.Cur() == old(cluster.Cur())
      ensures r.Failed? ==> r.fault in {Invalidated, HistoryLost, StreamFault}
      ensures cluster.pulls == old(cluster.pulls) + if r.Event? || r.Poison? then 1 else 0
      ensures r.Drained? ==>
                cluster.DryBy(cluster.run, cluster.ticks, old(cluster.run), old(cluster.ticks), cluster.Cur().next)
      ensures r.Failed? ==> cluster.breaks(old(cluster.ticks)).Some?
      ensures cluster.fatal == old(cluster.fatal) + (if r.Failed? then {r.fault} * FATAL else {})
      ensures old(cluster.ticks) < cluster.ticks
      ensures cluster.attempt == old(cluster.attempt) && cluster.head == old(cluster.head)
    {
      hide Lanes.Lane.Valid, Cluster.Valid, Whats, Tidy, Play, Next;
      r := cluster.TryNext();
    }

    /** What the event at `at` came to at send `k`: the turn, and what it left in hand. */
    ghost predicate Took(k: nat, at: nat, dead: bool, turn: Turn, token: string, time: int, lastTok: string,
                         lastCT: int)
      reads this
    {
      var c := cluster.event(at);
      && turn == TurnOf(lane.hooks, lane.downstream.verdict, lane.downstream.parks, k, c, dead)
      && token == (if turn.Advanced? then c.token else lastTok)
      && time == if !turn.Advanced? then lastCT
                 else if c.decodes then c.time else Floored(lastCT, committedCT, c.time)
    }

    lemma TookPoison(k: nat, at: nat, dead: bool, ok: bool, lastTok: string, lastCT: int)
      requires var c := cluster.event(at);
               && !c.decodes
               && (ok <==> c.token != "" && lane.hooks.poison && !dead && lane.downstream.parks(k, StuckKey(c)))
      ensures var c := cluster.event(at);
              if ok then Took(k, at, dead, Advanced, c.token, Floored(lastCT, committedCT, c.time), lastTok, lastCT)
              else Took(k, at, dead, Broken, lastTok, lastCT, lastTok, lastCT)
    {
    }

    lemma TookEvent(k: nat, at: nat, dead: bool, d: Lanes.Disposition, lastTok: string, lastCT: int)
      requires var c := cluster.event(at);
               && c.decodes
               && d == Lanes.Judge(lane.hooks, lane.downstream.verdict(k, StuckKey(c)), dead,
                                   lane.downstream.parks(k + 1, StuckKey(c)))
      ensures var c := cluster.event(at);
              if d.Sent? || d.Parked? then Took(k, at, dead, Advanced, c.token, c.time, lastTok, lastCT)
              else Took(k, at, dead, Halted, lastTok, lastCT, lastTok, lastCT)
    {
    }

    /** The event that ends a window with this turn is one the lane is stuck on, unless the context died. */
    ghost predicate Why(c: Change, turn: Turn, err: set<Fault>, dead: bool)
      reads lane, lane.tracker
    {
      match turn
      case Halted => c.decodes && (dead || lane.EndsStuck())
      case Broken =>
        && !c.decodes && Undecodable in err && lane.EndsStuck()
        && (ParkFault in err <==> c.token != "" && lane.hooks.poison && !dead)
      case Advanced => true
      case RanOut => true
    }

    /**
      Why a window that was served `served` events came no further than `reached`: an event served
      and not passed is the only one, the lane is stuck on it, and the fault says what it is.
     */
    ghost predicate Explained(start: nat, reached: nat, served: nat, stopped: bool, fault: set<Fault>, dead: bool)
      reads lane, lane.tracker
    {
      var c, over := cluster.event(reached), start + served > reached;
      && start + served <= reached + 1
      && (Undecodable in fault <==> over && !c.decodes)
      && (ParkFault in fault <==> over && !c.decodes && c.token != "" && lane.hooks.poison && !dead)
      && (over && c.decodes ==> stopped)
      && (over ==> lane.EndsStuck() || (c.decodes && dead))
      && (stopped ==> dead || (over && c.decodes))
    }

    lemma WhyExplains(start: nat, n: nat, turn: Turn, err: set<Fault>, dead: bool)
      requires Why(cluster.event(start + n), turn, err, dead) && (turn.Broken? <==> err != {})
      requires turn.Halted? || turn.Broken?
      ensures Explained(start, start + n, n + 1, turn.Halted?, err, dead)
    {
    }

    lemma NoneOver(start: nat, n: nat, stopped: bool, fault: set<Fault>, dead: bool)
      requires Undecodable !in fault && ParkFault !in fault && (stopped ==> dead)
      ensures Explained(start, start + n, n, stopped, fault, dead)
    {
    }

    /**
      One turn of the window. Either the stream had nothing, or had failed; or the next event was
      served, and the turn is what the lane made of it.
     */
    method ServeNext(ctx: Lanes.Context, lastTok: string, lastCT: int)
      returns (turn: Turn, token: string, time: int, err: set<Fault>)
      requires Valid() && streaming
      modifies cluster, cluster.store, lane, lane.downstream, lane.downstream.journal, lane.tracker, lane.clock, ctx
      ensures Went() && cluster.Cur().Open? && (old(Rested()) ==> cluster.StaysTidy(old(cluster.run)))
      ensures turn.Advanced? ==> old(cluster.Cur().next) in cluster.sys.confirmed
      ensures var at := old(cluster.Cur().next);
              if cluster.Cur().next == at
              then
                && (turn.RanOut? || turn.Broken?) && token == lastTok && time == lastCT
                && cluster.Cur() == old(cluster.Cur()) && lane.downstream.log == old(lane.downstream.log)
                && (turn.RanOut? ==>
                      cluster.DryBy(cluster.run, cluster.ticks, old(cluster.run), old(cluster.ticks), at))
                && cluster.pulls == old(cluster.pulls)
                && (turn.Broken? ==> err <= STREAM_FAULTS && cluster.breaks(old(cluster.ticks)).Some?)
              else
                && cluster.Cur() == Cursor.Open(at + 1, if turn.Advanced? then at + 1 else at)
                && Took(old(lane.downstream.calls), at, ctx.dead, turn, token, time, lastTok, lastCT)
                && cluster.pulls == old(cluster.pulls) + 1
                && Why(cluster.event(at), turn, err, ctx.dead)
      ensures turn.Broken? <==> err != {}
      ensures LaneStopped !in err && StoreFault !in err
      ensures cluster.fatal == old(cluster.fatal) + err * FATAL
      ensures cluster.attempt == old(cluster.attempt) && cluster.head == old(cluster.head)
      ensures old(cluster.ticks) < cluster.ticks && old(lane.downstream.calls) <= lane.downstream.calls
      ensures old(ctx.Live()) ==> ctx.Live()
    {
      hide Relay.Sound, Lanes.Lane.Valid, Cluster.Valid, Whats, Tidy, Play, Next, Floored, Lanes.Judge;
      hide Cluster.Spotless, StuckKey, Cluster.DryBy, Relay.Took, TurnOf, Cluster.Cur;
      OpenWhileStreaming();
      ghost var k, at := lane.downstream.calls, cluster.Cur().next;
      token, time, err := lastTok, lastCT, {};
      var served := Pull();
      match served {
        case Failed(fault) => return Broken, token, time, {fault};
        case Drained => return RanOut, token, time, err;
        case Poison(c) =>
          err := PassPoison(ctx, c);
          TookPoison(k, at, ctx.dead, err == {}, lastTok, lastCT);
          if err == {} {
            return Advanced, c.token, Floored(lastCT, committedCT, c.time), err;
          }
          return Broken, token, time, err;
        case Event(c) =>
          var d := Offer(ctx, c);
          TookEvent(k, at, ctx.dead, d, lastTok, lastCT);
          if d.Sent? || d.Parked? {
            return Advanced, c.token, c.time, err;
          }
          return Halted, token, time, err;
      }
    }

    /** From send `k` on every event meets one fate. */
    ghost predicate Fixed(k: nat) {
      && (forall l: nat, p: string :: l >= k ==> lane.downstream.verdict(l, p) == lane.downstream.verdict(k, p))
      && (forall l: nat, p: string :: l >= k ==> lane.downstream.parks(l, p) == lane.downstream.parks(k, p))
    }

    /** What the window comes to, from send `k` on, when the stream serves `n` events behind `start`. */
    ghost function Comes(k: nat, start: nat, n: nat): Progress
      reads this
    {
      WindowResult(lane.hooks, lane.downstream.verdict, lane.downstream.parks, k, cluster.event, committedCT, start, n)
    }

    /** The first `n` events all advance, and leave this token and time in hand. */
    ghost predicate Arrived(k: nat, start: nat, n: nat, token: string, time: int)
      reads this
    {
      Comes(k, start, n) == Progress(start + n, token, time, Advanced)
    }

    /** One more event is one more turn. */
    lemma OneTurnMore(k0: nat, k: nat, start: nat, n: nat, turn: Turn, token: string, time: int, lastTok: string,
                      lastCT: int)
      requires Fixed(k0) && k0 <= k
      requires Arrived(k0, start, n, lastTok, lastCT)
      requires Took(k, start + n, false, turn, token, time, lastTok, lastCT)
      ensures Comes(k0, start, n + 1)
              == Progress(if turn.Advanced? then start + n + 1 else start + n, token, time, turn)
    {
    }

    /** A window has come exactly this far, and a stop or an undecodable event is why it went no further. */
    ghost predicate Ended(w: Progress, reached: nat, token: string, time: int, stopped: bool, fault: set<Fault>)
    {
      && (reached, token, time) == (w.reached, w.token, w.time)
      && (stopped <==> w.turn.Halted?) && (Undecodable in fault <==> w.turn.Broken?) && !w.turn.RanOut?
    }

    lemma NothingComes(k0: nat, start: nat)
      ensures Arrived(k0, start, 0, "", ZERO_TIME)
    {
    }

    lemma OpenWhileStreaming()
      requires Valid() && streaming
      ensures cluster.Cur().Open? && tokenBatchSize > 0
    {
    }

    /** The `n`-th turn of a window that has passed everything from `start` on; `came`: an event was served. */
    method WindowTurn(ctx: Lanes.Context, lastTok: string, lastCT: int, ghost k0: nat, ghost start: nat, ghost n: nat)
      returns (turn: Turn, token: string, time: int, err: set<Fault>, ghost came: bool)
      requires Valid() && streaming && cluster.Cur().Open? && cluster.Cur().next == start + n
      requires Held(cluster.event, cluster.sys.confirmed, start, start + n, lastTok, lastCT)
      requires k0 <= lane.downstream.calls
      modifies cluster, cluster.store, lane, lane.downstream, lane.downstream.journal, lane.tracker, lane.clock, ctx
      ensures Went() && (old(Rested()) ==> cluster.StaysTidy(old(cluster.run)))
      ensures var at := if turn.Advanced? then start + n + 1 else start + n;
              && Held(cluster.event, cluster.sys.confirmed, start, at, token, time)
              && cluster.Cur() == (if came then Cursor.Open(start + n + 1, at) else old(cluster.Cur()))
      ensures turn.Advanced? && old(ctx.Live()) && Fixed(k0) && Arrived(k0, start, n, lastTok, lastCT) ==>
                Arrived(k0, start, n + 1, token, time)
      ensures !turn.Advanced? ==>
                Explained(start, start + n, if came then n + 1 else n, turn.Halted?, err, ctx.dead)
      ensures !turn.Advanced? && old(ctx.Live()) && Fixed(k0) && Arrived(k0, start, n, lastTok, lastCT) ==>
                Ended(Comes(k0, start, if came then n + 1 else n), start + n, token, time, turn.Halted?, err)
      ensures if came then !turn.RanOut? && (turn.Broken? ==> Undecodable in err)
              else (turn.RanOut? || turn.Broken?) && token == lastTok && time == lastCT && err <= STREAM_FAULTS
      ensures turn.RanOut? ==>
                cluster.DryBy(cluster.run, cluster.ticks, old(cluster.run), old(cluster.ticks), start + n)
      ensures cluster.pulls == old(cluster.pulls) + if came then 1 else 0
      ensures turn.Broken? && !came ==> cluster.breaks(old(cluster.ticks)).Some?
      ensures (turn.Broken? <==> err != {}) && LaneStopped !in err && StoreFault !in err
      ensures cluster.fatal == old(cluster.fatal) + err * FATAL && cluster.attempt == old(cluster.attempt)
      ensures old(cluster.ticks) < cluster.ticks && old(lane.downstream.calls) <= lane.downstream.calls
      ensures old(ctx.Live()) ==> ctx.Live()
    {
      hide Relay.Sound, Lanes.Lane.Valid, Cluster.Valid, Whats, Tidy, Left, Play, Next, Relay.Fixed, Relay.Comes;
      hide Held, TurnOf, Floored;
      ghost var k, before := lane.downstream.calls, cluster.sys.confirmed;
      turn, token, time, err := ServeNext(ctx, lastTok, lastCT);
      came := cluster.Cur().next > start + n;
      if turn.Advanced? {
        TookLeft(k, start + n, ctx.dead, turn, token, time, lastTok, lastCT);
        HeldGrows(cluster.event, before, cluster.sys.confirmed, start, start + n, lastTok, lastCT, token, time);
      } else {
        HeldStays(cluster.event, before, cluster.sys.confirmed, start, start + n, lastTok, lastCT);
      }
      if came && old(ctx.Live()) && Fixed(k0) && Arrived(k0, start, n, lastTok, lastCT) {
        OneTurnMore(k0, k, start, n, turn, token, time, lastTok, lastCT);
      }
      if !came {
        NoneOver(start, n, false, err, ctx.dead);
      } else if !turn.Advanced? {
        WhyExplains(start, n, turn, err, ctx.dead);
      }
      if !turn.Advanced? && old(ctx.Live()) && Fixed(k0) && Arrived(k0, start, n, lastTok, lastCT) {
        EndsSo(k0, start, if came then n + 1 else n, start + n, token, time, if came then turn else Advanced, err);
      }
    }

    lemma EndsSo(k: nat, start: nat, served: nat, reached: nat, token: string, time: int, turn: Turn, fault: set<Fault>)
      requires Comes(k, start, served) == Progress(reached, token, time, turn)
      requires !turn.RanOut? && (turn.Broken? <==> Undecodable in fault)
      ensures Ended(Comes(k, start, served), reached, token, time, turn.Halted?, fault)
    {
    }

    /** Turns until one does not advance, or the window is full. */
    method ServeWindow(ctx: Lanes.Context)
      returns (stopped: bool, advanced: bool, caughtUp: bool, lastTok: string, lastCT: int, fault: set<Fault>,
               ghost reached: nat, ghost served: nat)
      requires Valid() && streaming
      modifies cluster, cluster.store, lane, lane.downstream, lane.downstream.journal, lane.tracker, lane.clock, ctx
      ensures Went() && (old(Rested()) ==> cluster.StaysTidy(old(cluster.run)))
      ensures Holding(old(cluster.Cur().next), reached, lastTok, lastCT)
      ensures old(cluster.Cur().next) <= reached <= old(cluster.Cur().next) + served && served <= tokenBatchSize
      ensures advanced == (reached > old(cluster.Cur().next))
      ensures cluster.Cur() == if served > 0 then Cursor.Open(old(cluster.Cur().next) + served, reached)
                               else old(cluster.Cur())
      ensures if fault == {} then (stopped || advanced || caughtUp) && !(stopped && caughtUp) else !stopped
      ensures fault == {} && !stopped ==> reached == old(cluster.Cur().next) + served && (old(Rested()) ==> Rested())
      ensures cluster.pulls == old(cluster.pulls) + served
      ensures caughtUp ==>
                cluster.DryBy(cluster.run, cluster.ticks, old(cluster.run), old(cluster.ticks),
                              old(cluster.Cur().next) + served)
      ensures fault == {} && !stopped && !caughtUp ==> served == tokenBatchSize
      ensures fault != {} && Undecodable !in fault ==> cluster.BrokeSince(old(cluster.ticks))
      ensures old(ctx.Live()) && Fixed(old(lane.downstream.calls)) ==>
                && Ended(old(Comes(lane.downstream.calls, cluster.Cur().next, served)), reached, lastTok, lastCT,
                         stopped, fault)
      ensures old(ctx.dead) ==> stopped && fault == {} && served == 0 && cluster.Here() == old(cluster.Here())
      ensures Explained(old(cluster.Cur().next), reached, served, stopped, fault, ctx.dead)
      ensures old(ctx.Live()) ==> ctx.Live()
      ensures LaneStopped !in fault && StoreFault !in fault && cluster.fatal == old(cluster.fatal) + fault * FATAL
      ensures cluster.attempt == old(cluster.attempt)
    {
      hide Relay.Sound, Lanes.Lane.Valid, Cluster.Valid, Whats, Tidy, Left, Play, Next, Relay.Fixed, Relay.Comes;
      hide Held, Relay.Ended, Relay.Explained, Relay.Why, Cluster.DryBy, Cluster.Cur, Cluster.Spotless, Cluster.Here;
      stopped, advanced, caughtUp, fault := false, false, false, {};
      lastTok, lastCT := "", ZERO_TIME;
      OpenWhileStreaming();
      ghost var start, k0 := cluster.Cur().next, lane.downstream.calls;
      ghost var steady := ctx.Live() && Fixed(k0);
      reached, served := start, 0;
      HeldNothing(cluster.event, cluster.sys.confirmed, start, lastTok, lastCT);
      NothingComes(k0, start);
      for n := 0 to tokenBatchSize
        invariant Went() && streaming && (old(Rested()) ==> cluster.StaysTidy(old(cluster.run)))
        invariant reached == start + n && served == n
        invariant cluster.Cur() == if n == 0 then old(cluster.Cur()) else Cursor.Open(reached, reached)
        invariant Held(cluster.event, cluster.sys.confirmed, start, reached, lastTok, lastCT)
        invariant advanced == (n > 0) && !stopped && !caughtUp && fault == {}
        invariant old(ctx.dead) ==> ctx.dead && n == 0 && cluster.Here() == old(cluster.Here())
        invariant cluster.fatal == old(cluster.fatal) && cluster.attempt == old(cluster.attempt)
        invariant cluster.pulls == old(cluster.pulls) + n && k0 <= lane.downstream.calls
        invariant old(ctx.Live()) ==> ctx.Live()
        invariant steady ==> ctx.Live() && Fixed(k0) && Arrived(k0, start, n, lastTok, lastCT)
      {
        var dead := ctx.Err();
        if dead {
          stopped := true;
          NoneOver(start, n, stopped, {}, true);
          return;
        }
        var turn, token, time, err;
        ghost var came;
        ghost var mid, tick := cluster.run, cluster.ticks;
        turn, token, time, err, came := WindowTurn(ctx, lastTok, lastCT, k0, start, n);
        if turn.RanOut? {
          cluster.DryStays(cluster.run, cluster.ticks, mid, tick, reached, cluster.run, cluster.ticks,
                           old(cluster.run), old(cluster.ticks));
        }
        served := if came then n + 1 else n;
        lastTok, lastCT, fault := token, time, err;
        stopped, caughtUp := turn.Halted?, turn.RanOut?;
        if !turn.Advanced? {
          return;
        }
        advanced, reached := true, reached + 1;
      }
      NoneOver(start, served, false, {}, ctx.dead);
      if steady {
        EndsSo(k0, start, served, reached, lastTok, lastCT, Advanced, {});
      }
    }

    lemma TookLeft(k: nat, at: nat, dead: bool, turn: Turn, token: string, time: int, lastTok: string, lastCT: int)
      requires Took(k, at, dead, turn, token, time, lastTok, lastCT) && turn.Advanced?
      ensures Left(cluster.event(at), token, time)
    {
    }

    /** Since then nothing was buffered at some call, or there was nothing behind `at` to serve. */
    ghost predicate Dry(past: seq<Label>, tick: nat, at: nat)
      reads cluster
    {
      cluster.DryBy(cluster.run, cluster.ticks, past, tick, at)
    }

    /** What this window comes to from send `k` on under fixed verdicts. */
    ghost predicate CameTo(k: nat, w: Window, attempt: Option<Attempt>, err: set<Fault>) {
      var result := WindowResult(lane.hooks, lane.downstream.verdict, lane.downstream.parks, k, cluster.event,
                                 w.committed, w.start, w.served);
      && w.reached == result.reached
      && (w.reached > w.start ==> attempt == Some(Attempt(w.reached, result.token, result.time)))
      && (Undecodable in err <==> result.turn.Broken?)
      && (LaneStopped in err ==> result.turn.Halted?)
      && (result.turn.Halted? ==> err in {{LaneStopped}, {StoreFault}})
    }

    lemma ComesTo(k: nat, w: Window, token: string, time: int, stopped: bool, fault: set<Fault>,
                  attempt: Option<Attempt>, err: set<Fault>)
      requires Ended(WindowResult(lane.hooks, lane.downstream.verdict, lane.downstream.parks, k, cluster.event,
                                  w.committed, w.start, w.served), w.reached, token, time, stopped, fault)
      requires w.reached > w.start ==> attempt == Some(Attempt(w.reached, token, time))
      requires LaneStopped !in fault && (stopped ==> fault == {})
      requires if stopped then err in {{LaneStopped}, {StoreFault}} else err == fault || err == fault + {StoreFault}
      ensures CameTo(k, w, attempt, err)
    {
    }

    /** The same, with the save that follows: its failure may stand for the stop, and hides no other fault. */
    ghost predicate Excused(start: nat, reached: nat, served: nat, err: set<Fault>, dead: bool)
      reads lane, lane.tracker
    {
      exists stopped ::
        && Explained(start, reached, served, stopped, err, dead)
        && (LaneStopped in err ==> stopped) && (stopped ==> err == {LaneStopped} || err == {StoreFault})
    }

    lemma Excuses(start: nat, reached: nat, served: nat, stopped: bool, fault: set<Fault>, err: set<Fault>, dead: bool)
      requires Explained(start, reached, served, stopped, fault, dead)
      requires fault - {StoreFault, LaneStopped} == err - {StoreFault, LaneStopped}
      requires (LaneStopped in err ==> stopped) && (stopped ==> err == {LaneStopped} || err == {StoreFault})
      ensures Excused(start, reached, served, err, dead)
    {
      assert Undecodable in fault <==> Undecodable in fault - {StoreFault, LaneStopped};
      assert ParkFault in fault <==> ParkFault in fault - {StoreFault, LaneStopped};
      assert Undecodable in err <==> Undecodable in err - {StoreFault, LaneStopped};
      assert ParkFault in err <==> ParkFault in err - {StoreFault, LaneStopped};
      assert Explained(start, reached, served, stopped, err, dead);
    }

    lemma SavingHidesNothing(fault: set<Fault>, err: set<Fault>)
      requires err == fault || err == fault + {StoreFault} || err == fault + {LaneStopped}
      ensures err * FATAL == fault * FATAL && (err * STREAM_FAULTS != {} ==> fault != {})
      ensures Undecodable in err <==> Undecodable in fault
    {
    }

    /**
      Up to `tokenBatchSize` events, and one save of the position they came to. However the
      window ends, the save is tried at exactly the position just past the last event disposed
      of; a fault the stream reported is never hidden behind a failed save.
     */
    method DrainWindow(ctx: Lanes.Context) returns (err: set<Fault>, ghost reached: nat, ghost served: nat)
      requires Valid() && streaming
      modifies this, cluster, cluster.store
      modifies lane, lane.downstream, lane.downstream.journal, lane.tracker, lane.clock, ctx
      ensures cluster.pulls == old(cluster.pulls) + served
      ensures err == {} ==>
                served == tokenBatchSize
                || Dry(old(cluster.run), old(cluster.ticks), old(cluster.Cur().next) + served)
      ensures StoreFault in err ==> Blank() || cluster.FailedSince(old(cluster.ticks))
      ensures err * STREAM_FAULTS != {} && Undecodable !in err ==> cluster.BrokeSince(old(cluster.ticks))
      ensures Went()
      ensures old(Rested()) ==> cluster.StaysTidy(old(cluster.run)) && (err == {} ==> Rested())
      ensures forall e: nat :: old(cluster.Cur().next) <= e < reached ==> e in cluster.sys.confirmed
      ensures reached > old(cluster.Cur().next) ==> TriedAt(reached) && (StoreFault in err <==> cluster.answer.Err?)
      ensures err == {} ==> streaming
      ensures LaneStopped in err ==> err == {LaneStopped} && !streaming
      ensures old(cluster.Cur().next) <= reached <= old(cluster.Cur().next) + served && served <= tokenBatchSize
      ensures err == {} ==> reached == old(cluster.Cur().next) + served
      ensures Excused(old(cluster.Cur().next), reached, served, err, ctx.dead)
      ensures (old(ctx.Live()) ==> ctx.Live()) && (old(ctx.dead) ==> served == 0)
      ensures streaming ==>
                if served > 0 then cluster.Cur() == Cursor.Open(old(cluster.Cur().next) + served, reached)
                else cluster.Cur() == old(cluster.Cur())
      ensures old(ctx.Live()) && Fixed(old(lane.downstream.calls)) ==>
                CameTo(old(lane.downstream.calls), Window(old(cluster.Cur().next), old(committedCT), served, reached),
                       cluster.attempt, err)
      ensures err == {} && reached == old(cluster.Cur().next) ==> IdleSaved(reached)
      ensures lastSavedTok != old(lastSavedTok) ==> Stored(cluster.site, cluster.sys) == Some(reached)
      ensures cluster.fatal == old(cluster.fatal) + err * FATAL
    {
      hide Relay.Sound, Lanes.Lane.Valid, Cluster.Valid, Whats, Tidy, Left, Cluster.DryBy, Cluster.Spotless;
      hide Relay.Fixed, Relay.CameTo, Relay.Ended, FATAL, STREAM_FAULTS;
      hide WindowResult, Relay.Explained, Relay.Excused, Relay.IdleSaved, Relay.Valid, Relay.Blank, Stored;
      hide Cluster.Cur, Relay.TriedAt, Cluster.Here, Lanes.Lane.EndsStuck, Lanes.Context.Live;
      hide Grew, Clean, Relay.Rested, Relay.Holding, Held;
      OpenWhileStreaming();
      ghost var start, k, live, committed := cluster.Cur().next, lane.downstream.calls, ctx.Live(), committedCT;
      var stopped, advanced, caughtUp, lastTok, lastCT, fault;
      stopped, advanced, caughtUp, lastTok, lastCT, fault, reached, served := ServeWindow(ctx);
      ghost var mid, midRun := cluster.sys, cluster.run;
      err := SettleWindow(stopped, advanced, caughtUp, lastTok, lastCT, fault, start, reached, old(cluster.run),
                          old(cluster.ticks), start + served);
      GrewOn(old(cluster.sys), old(cluster.run), mid, midRun, cluster.sys, cluster.run);
      Excuses(start, reached, served, stopped, fault, err, ctx.dead);
      SavingHidesNothing(fault, err);
      if live && Fixed(k) {
        ComesTo(k, Window(start, committed, served, reached), lastTok, lastCT, stopped, fault, cluster.attempt, err);
      }
    }

    /** The save that ends a window: behind a fault, of what was disposed of before it. */
    method SettleWindow(stopped: bool, advanced: bool, caughtUp: bool, lastTok: string, lastCT: int, fault: set<Fault>,
                        ghost start: nat, ghost reached: nat, ghost past: seq<Label>, ghost tick: nat, ghost at: nat)
      returns (err: set<Fault>)
      requires Valid() && streaming && Holding(start, reached, lastTok, lastCT) && advanced == (reached > start)
      requires caughtUp ==> Dry(past, tick, at)
      requires fault == {} && caughtUp ==> cluster.Cur().next == reached
      requires if fault == {} then (stopped || advanced || caughtUp) && !(stopped && caughtUp)
               else !stopped && LaneStopped !in fault && StoreFault !in fault
      modifies this, cluster, cluster.store
      ensures cluster.pulls == old(cluster.pulls) && cluster.fatal == old(cluster.fatal)
      ensures Went() && (old(Rested()) ==> Rested())
      ensures fault != {} || stopped || advanced || old(Rested()) ==> cluster.StaysTidy(old(cluster.run))
      ensures advanced ==> cluster.attempt == Some(Attempt(reached, lastTok, lastCT))
      ensures advanced ==> TriedAt(reached) && (StoreFault in err <==> cluster.answer.Err?)
      ensures StoreFault in err ==> Blank() || cluster.FailedSince(old(cluster.ticks))
      ensures err == {} || fault != {} ==> streaming
      ensures streaming ==> cluster.Cur() == old(cluster.Cur())
      ensures if stopped then err == {StoreFault} || (err == {LaneStopped} && !streaming)
              else err == fault || err == fault + {StoreFault}
      ensures err == {} && !advanced ==> IdleSaved(reached)
      ensures lastSavedTok != old(lastSavedTok) ==> Stored(cluster.site, cluster.sys) == Some(reached)
      ensures caughtUp ==> Dry(past, tick, at)
      ensures Held(cluster.event, cluster.sys.confirmed, start, reached, lastTok, lastCT)
      ensures forall e: nat :: start <= e < reached ==> e in cluster.sys.confirmed
    {
      hide Relay.Sound, Lanes.Lane.Valid, Cluster.Valid, Whats, Tidy, Play, Next, Cluster.DryBy;
      ghost var mid, midTick, before := cluster.run, cluster.ticks, cluster.sys.confirmed;
      if fault == {} {
        err := EndWindow(stopped, advanced, caughtUp, lastTok, lastCT, start, reached);
      } else {
        err := SavePrefix(advanced, lastTok, lastCT, start, reached);
        err := fault + err;
      }
      if caughtUp {
        cluster.DryStays(mid, midTick, past, tick, at, cluster.run, cluster.ticks, past, tick);
      }
      HeldStays(cluster.event, before, cluster.sys.confirmed, start, reached, lastTok, lastCT);
    }

    // ----- the pass, and the loop

    /** Asks for the lease. */
    method TryLead() returns (r: Result<bool>)
      requires Valid()
      modifies cluster, cluster.store
      ensures old(cluster.ticks) <= cluster.ticks && (r.Err? ==> cluster.FailedSince(old(cluster.ticks)))
      ensures Valid() && cluster.Later(old(cluster.sys), old(cluster.run)) && cluster.StaysTidy(old(cluster.run))
      ensures Quiet() && cluster.Here() == old(cluster.Here()) && cluster.elections == old(cluster.elections) + [r]
    {
      hide Lanes.Lane.Valid, Cluster.Valid, Whats, Tidy, Play, Next;
      r := cluster.TryLead();
    }

    /** A pass that led and met no fault served a whole window, or until the stream ran dry. */
    ghost predicate HadBy(p: Pass, run: seq<Label>, ticks: nat, past: seq<Label>, tick: nat) {
      p.led ==>
        if p.window.None? then p.err != {}
        else
          var w := p.window.value;
          && w.start <= w.reached <= w.start + w.served && w.served <= tokenBatchSize
          && (p.err == {} ==>
                w.served == tokenBatchSize || cluster.DryBy(run, ticks, past, tick, w.start + w.served))
    }

    lemma HadStays(p: Pass, run: seq<Label>, ticks: nat, past: seq<Label>, tick: nat, later: seq<Label>,
                   laterTicks: nat, earlier: seq<Label>, earlierTick: nat)
      requires HadBy(p, run, ticks, past, tick) && run <= later && ticks <= laterTicks
      requires earlier <= past && earlierTick <= tick
      ensures HadBy(p, later, laterTicks, earlier, earlierTick)
    {
      hide Cluster.DryBy;
      if p.led && p.window.Some? {
        ghost var at := p.window.value.start + p.window.value.served;
        if cluster.DryBy(run, ticks, past, tick, at) {
          cluster.DryStays(run, ticks, past, tick, at, later, laterTicks, earlier, earlierTick);
        }
      }
    }

    /**
      One leader-gated window. A process that does not lead delivers nothing and saves nothing; one
      that leads and has its stream serves a window of it, full unless the stream runs dry or the
      lane or a fault ends it. The run stays tidy if no stream that stopped short was left open by
      the pass before.
     */
    method RunOnce(ctx: Lanes.Context) returns (err: set<Fault>, ghost pass: Pass)
      requires Valid()
      modifies this, cluster, cluster.store
      modifies lane, lane.downstream, lane.downstream.journal, lane.tracker, lane.clock, ctx
      ensures Valid() && cluster.Later(old(cluster.sys), old(cluster.run)) && old(cluster.ticks) <= cluster.ticks
      ensures old(Rested()) ==> cluster.StaysTidy(old(cluster.run)) && (err == {} ==> Rested())
      ensures LaneStopped in err ==> err == {LaneStopped} && !streaming
      ensures cluster.fatal == old(cluster.fatal) + err * FATAL
      ensures |cluster.elections| == |old(cluster.elections)| + 1 && old(cluster.elections) <= cluster.elections
      ensures pass.led == (cluster.elections[|old(cluster.elections)|] == Ok(true)) && pass.err == err
      ensures !pass.led ==>
                && pass.window.None?
                && err == (if cluster.elections[|old(cluster.elections)|].Err? then {StoreFault} else {})
                && (err == {} ==> !streaming)
                && cluster.attempt == old(cluster.attempt) && lane.downstream.log == old(lane.downstream.log)
      ensures HadBy(pass, cluster.run, cluster.ticks, old(cluster.run), old(cluster.ticks))
      ensures pass.led && pass.window.None? ==>
                !old(streaming) && err != {} && cluster.FailedSince(old(cluster.ticks))
      ensures cluster.pulls == old(cluster.pulls) + if pass.window.Some? then pass.window.value.served else 0
      ensures pass.window.Some? ==>
                var w := pass.window.value;
                && (old(streaming) ==> w.start == old(cluster.Cur().next) && w.committed == old(committedCT))
                && (forall e: nat :: w.start <= e < w.reached ==> e in cluster.sys.confirmed)
                && (w.reached > w.start ==> TriedAt(w.reached))
                && (err == {} ==> streaming && Stands(w))
                && Excused(w.start, w.reached, w.served, err, ctx.dead) && (old(ctx.dead) ==> w.served == 0)
                && (err * STREAM_FAULTS != {} && Undecodable !in err ==> cluster.BrokeSince(old(cluster.ticks)))
                && (old(ctx.Live()) && Fixed(old(lane.downstream.calls)) ==>
                      CameTo(old(lane.downstream.calls), w, cluster.attempt, err))
      ensures StoreFault in err ==> Blank() || cluster.FailedSince(old(cluster.ticks))
      ensures old(ctx.Live()) ==> ctx.Live()
    {
      hide Relay.Sound, Lanes.Lane.Valid, Cluster.Valid, Whats, Tidy, Play, Next, Relay.Excused, Relay.Explained;
      hide Relay.Fixed, Cluster.DryBy, Cluster.Spotless, WindowResult, Relay.CameTo, Relay.Stands;
      pass := Pass(false, {}, None);
      var leads := TryLead();
      if leads.Err? {
        return {StoreFault}, Pass(false, {StoreFault}, None);
      }
      if !leads.value {
        CloseStream();
        return {}, pass;
      }
      if !streaming {
        err := OpenStream();
        if err != {} {
          return err, Pass(true, err, None);
        }
      }
      ghost var window, mid, tick := Window(0, 0, 0, 0), cluster.run, cluster.ticks;
      err, window := LedWindow(ctx);
      pass := Pass(true, err, Some(window));
      HadStays(pass, cluster.run, cluster.ticks, mid, tick, cluster.run, cluster.ticks, old(cluster.run),
               old(cluster.ticks));
    }

    /** The window of a pass that leads and has its stream. */
    method LedWindow(ctx: Lanes.Context) returns (err: set<Fault>, ghost window: Window)
      requires Valid() && streaming
      modifies this, cluster, cluster.store
      modifies lane, lane.downstream, lane.downstream.journal, lane.tracker, lane.clock, ctx
      ensures Went()
      ensures old(Rested()) ==> cluster.StaysTidy(old(cluster.run)) && (err == {} ==> Rested())
      ensures LaneStopped in err ==> err == {LaneStopped} && !streaming
      ensures cluster.fatal == old(cluster.fatal) + err * FATAL
      ensures cluster.pulls == old(cluster.pulls) + window.served
      ensures window.start == old(cluster.Cur().next) && window.committed == old(committedCT)
      ensures HadBy(Pass(true, err, Some(window)), cluster.run, cluster.ticks, old(cluster.run), old(cluster.ticks))
      ensures forall e: nat :: window.start <= e < window.reached ==> e in cluster.sys.confirmed
      ensures window.reached > window.start ==> TriedAt(window.reached)
      ensures err == {} ==> streaming && Stands(window)
      ensures Excused(window.start, window.reached, window.served, err, ctx.dead)
      ensures (old(ctx.Live()) ==> ctx.Live()) && (old(ctx.dead) ==> window.served == 0)
      ensures err * STREAM_FAULTS != {} && Undecodable !in err ==> cluster.BrokeSince(old(cluster.ticks))
      ensures old(ctx.Live()) && Fixed(old(lane.downstream.calls)) ==>
                CameTo(old(lane.downstream.calls), window, cluster.attempt, err)
      ensures StoreFault in err ==> Blank() || cluster.FailedSince(old(cluster.ticks))
    {
      hide Relay.Sound, Lanes.Lane.Valid, Cluster.Valid, Whats, Tidy, Play, Next;
      hide Relay.Fixed, Cluster.DryBy, Cluster.Spotless, WindowResult, Left, Relay.Excused, Relay.Explained;
      OpenWhileStreaming();
      ghost var start, committed := cluster.Cur().next, committedCT;
      ghost var reached, served;
      err, reached, served := DrainWindow(ctx);
      window := Window(start, committed, served, reached);
    }

    /** The cursor stands right behind this window. */
    ghost predicate Stands(w: Window)
      reads cluster
    {
      cluster.Cur().Open? && cluster.Cur().next == w.start + w.served && w.reached == w.start + w.served
    }

    /** All of them, by now. */
    ghost predicate AllHad(passes: seq<Pass>, run: seq<Label>, ticks: nat, past: seq<Label>, tick: nat) {
      forall k :: 0 <= k < |passes| ==> HadBy(passes[k], run, ticks, past, tick)
    }

    lemma AllHadOn(passes: seq<Pass>, mid: seq<Label>, midTick: nat, pass: Pass, past: seq<Label>, tick: nat)
      requires AllHad(passes, mid, midTick, past, tick)
      requires past <= mid <= cluster.run && tick <= midTick <= cluster.ticks
      requires HadBy(pass, cluster.run, cluster.ticks, mid, midTick)
      ensures AllHad(passes + [pass], cluster.run, cluster.ticks, past, tick)
    {
      hide HadBy;
      HadStays(pass, cluster.run, cluster.ticks, mid, midTick, cluster.run, cluster.ticks, past, tick);
      forall k | 0 <= k < |passes|
        ensures HadBy(passes[k], cluster.run, cluster.ticks, past, tick)
      {
        HadStays(passes[k], mid, midTick, past, tick, cluster.run, cluster.ticks, past, tick);
      }
    }

    /** These passes answer to these elections, and only the last can have met a fatal condition. */
    ghost predicate Answers(passes: seq<Pass>, elections: seq<Result<bool>>, from: nat, err: set<Fault>) {
      && |elections| == from + |passes|
      && (forall k :: 0 <= k < |passes| ==> passes[k].led == (elections[from + k] == Ok(true)))
      && (forall k :: 0 <= k < |passes| && passes[k].err * FATAL != {} ==> k == |passes| - 1 && passes[k].err == err)
      && (err != {} ==> passes != [] && passes[|passes| - 1].err == err)
    }

    lemma AnswersOn(passes: seq<Pass>, elections: seq<Result<bool>>, from: nat, pass: Pass, after: seq<Result<bool>>)
      requires Answers(passes, elections, from, {})
      requires elections <= after && |after| == |elections| + 1
      requires pass.led == (after[|elections|] == Ok(true))
      ensures var err := if pass.err * FATAL != {} then pass.err else {};
              Answers(passes + [pass], after, from, err)
    {
    }

    /**
      Passes until the context dies or the stream reports a fatal condition, which is returned
      and never retried. Every other fault, and the end, closes the stream.
     */
    method Run(ctx: Lanes.Context, limit: nat) returns (err: set<Fault>, canceled: bool, ghost passes: seq<Pass>)
      requires Valid()
      modifies this, cluster, cluster.store
      modifies lane, lane.downstream, lane.downstream.journal, lane.tracker, lane.clock, ctx
      ensures Valid() && !streaming && cluster.Later(old(cluster.sys), old(cluster.run))
      ensures old(Rested()) ==> cluster.StaysTidy(old(cluster.run))
      ensures cluster.fatal == old(cluster.fatal) + err * FATAL
      ensures err != {} ==> err * FATAL != {}
      ensures canceled ==> ctx.dead && err == {}
      ensures old(ctx.Live()) ==> !canceled
      ensures |passes| <= limit && (!canceled && err == {} ==> |passes| == limit)
      ensures Answers(passes, cluster.elections, |old(cluster.elections)|, err)
      ensures AllHad(passes, cluster.run, cluster.ticks, old(cluster.run), old(cluster.ticks))
      ensures cluster.pulls == old(cluster.pulls) + ServedIn(passes)
    {
      hide Relay.Sound, Lanes.Lane.Valid, Cluster.Valid, Whats, Tidy, Play, Next, Cluster.Spotless, ServedIn;
      hide Relay.HadBy, Relay.AllHad, Relay.Answers, Cluster.DryBy, Relay.Fixed, Relay.Excused, Clean;
      passes, err, canceled := [], {}, false;
      NoneHad(cluster.run, cluster.ticks, cluster.elections);
      for n := 0 to limit
        invariant Valid() && cluster.Later(old(cluster.sys), old(cluster.run)) && old(cluster.ticks) <= cluster.ticks
        invariant old(Rested()) ==> Rested() && cluster.StaysTidy(old(cluster.run))
        invariant cluster.fatal == old(cluster.fatal) && |passes| == n && (old(ctx.Live()) ==> ctx.Live())
        invariant Answers(passes, cluster.elections, |old(cluster.elections)|, {}) && err == {} && !canceled
        invariant AllHad(passes, cluster.run, cluster.ticks, old(cluster.run), old(cluster.ticks))
        invariant cluster.pulls == old(cluster.pulls) + ServedIn(passes)
      {
        var dead := ctx.Err();
        if dead {
          canceled := true;
          break;
        }
        err, passes := RunPass(ctx, passes, old(cluster.run), old(cluster.ticks), |old(cluster.elections)|);
        if err != {} {
          break;
        }
      }
      Leave(passes, old(cluster.run), old(cluster.ticks));
    }

    /** One pass more; any fault but a stopped lane closes the stream, and only a fatal one is handed on. */
    method RunPass(ctx: Lanes.Context, ghost before: seq<Pass>, ghost past: seq<Label>, ghost tick: nat,
                   ghost from: nat)
      returns (fatal: set<Fault>, ghost passes: seq<Pass>)
      requires Valid() && AllHad(before, cluster.run, cluster.ticks, past, tick)
      requires Answers(before, cluster.elections, from, {}) && past <= cluster.run && tick <= cluster.ticks
      modifies this, cluster, cluster.store
      modifies lane, lane.downstream, lane.downstream.journal, lane.tracker, lane.clock, ctx
      ensures Valid() && cluster.Later(old(cluster.sys), old(cluster.run)) && old(cluster.ticks) <= cluster.ticks
      ensures old(Rested()) ==> Rested() && cluster.StaysTidy(old(cluster.run))
      ensures cluster.fatal == old(cluster.fatal) + fatal * FATAL && (fatal != {} ==> fatal * FATAL != {})
      ensures |passes| == |before| + 1 && (old(ctx.Live()) ==> ctx.Live())
      ensures Answers(passes, cluster.elections, from, fatal) && AllHad(passes, cluster.run, cluster.ticks, past, tick)
      ensures cluster.pulls == old(cluster.pulls) + ServedIn(passes) - ServedIn(before)
    {
      hide Relay.Sound, Lanes.Lane.Valid, Cluster.Valid, Whats, Tidy, Play, Next, Cluster.Spotless, Relay.TriedAt;
      hide Relay.HadBy, Relay.AllHad, Relay.Answers, Cluster.DryBy, Relay.Fixed, Relay.CameTo, Relay.Stands;
      hide Relay.Excused, Relay.Blank, Cluster.FailedSince, Cluster.BrokeSince, Clean, Cluster.Here;
      ghost var pass;
      ghost var mid, midTick, elections := cluster.run, cluster.ticks, cluster.elections;
      fatal, pass := RunOnce(ctx);
      AnswersOn(before, elections, from, pass, cluster.elections);
      AllHadOn(before, mid, midTick, pass, past, tick);
      passes := before + [pass];
      assert passes[..|before|] == before;
      if fatal != {} && LaneStopped !in fatal {
        Leave(passes, past, tick);
      }
      if fatal * FATAL == {} {
        fatal := {};
      }
    }

    lemma NoneHad(run: seq<Label>, ticks: nat, elections: seq<Result<bool>>)
      ensures AllHad([], run, ticks, run, ticks) && Answers([], elections, |elections|, {}) && ServedIn([]) == 0
    {
    }

    /** The stream is closed; what the passes had stays as it was. */
    method Leave(ghost passes: seq<Pass>, ghost past: seq<Label>, ghost tick: nat)
      requires Valid() && AllHad(passes, cluster.run, cluster.ticks, past, tick)
      requires past <= cluster.run && tick <= cluster.ticks
      modifies this`streaming, cluster, cluster.store
      ensures Went() && Quiet() && !streaming && cluster.StaysTidy(old(cluster.run))
      ensures AllHad(passes, cluster.run, cluster.ticks, past, tick)
    {
      hide Relay.HadBy, Relay.Sound, Cluster.DryBy, Cluster.Spotless;
      ghost var mid, midTick := cluster.run, cluster.ticks;
      CloseStream();
      forall k | 0 <= k < |passes|
        ensures HadBy(passes[k], cluster.run, cluster.ticks, past, tick)
      {
        HadStays(passes[k], mid, midTick, past, tick, cluster.run, cluster.ticks, past, tick);
      }
    }
  }

  // ----- the promises, as the relay's own store and downstream show them

  /** The downstream's record of event `e`: acknowledged, or confirmed parked, under its own key. */
  ghost predicate Proved(relay: Relay, e: nat)
    reads relay, relay.cluster, relay.lane, relay.lane.downstream
  {
    exists j :: && 0 <= j < |relay.cluster.delivered| && j < |relay.lane.downstream.log|
                && relay.cluster.delivered[j] == Delivery(e, relay.lane.downstream.log[j])
                && relay.lane.downstream.log[j].pos == StuckKey(relay.cluster.event(e))
                && !relay.lane.downstream.log[j].Reached?
  }

  /** A process disposed of event `e`, and if it was this one its downstream has the proof. */
  ghost predicate Vouched(relay: Relay, e: nat)
    reads relay, relay.cluster, relay.lane, relay.lane.downstream
  {
    exists k :: && 0 <= k < |relay.cluster.run| && Disposes(relay.cluster.run[k], e)
                && (relay.cluster.run[k].who == relay.cluster.me ==> Proved(relay, e))
  }

  /** What this process disposed of, its downstream acknowledged or its handler confirmed parked. */
  lemma DisposedByTheDownstream(relay: Relay, k: nat, e: nat)
    requires relay.Valid() && k < |relay.cluster.run| && relay.cluster.run[k] == Dispose(relay.cluster.me, e)
    ensures Proved(relay, e)
  {
    var c := relay.cluster;
    OwnHolds(c.run, c.me, k);
    var j :| 0 <= j < |c.delivered| && MirroredAll(c.delivered, c.me)[j] == c.run[k];
    assert c.delivered[j].item == e && relay.lane.downstream.log[j] == c.delivered[j].what;
  }

  lemma ConfirmedIsVouched(relay: Relay, e: nat)
    requires relay.Valid() && e in relay.cluster.sys.confirmed
    ensures Vouched(relay, e)
  {
    var c := relay.cluster;
    ConfirmedWasDisposed(c.site, c.run, e);
    var k :| 0 <= k < |c.run| && Disposes(c.run[k], e);
    if c.run[k].who == c.me {
      DisposedByTheDownstream(relay, k, e);
    }
  }

  /**
    No loss: from the latest fresh start on, each event the stored token has passed was disposed
    of by some process, and if by this one, then its downstream acknowledged the event or its
    handler took it. Tidy is what Run makes of every run it drives.
   */
  lemma StoreHoldsOnlyDisposedEvents(relay: Relay, e: nat)
    requires relay.Valid() && Tidy(relay.cluster.site, INIT, relay.cluster.run)
    requires relay.cluster.store.Row(relay.cluster.name).Some?
    requires var c := relay.cluster;
             c.sys.anchor <= e < c.site.place(c.store.Row(c.name).value.token)
    ensures Vouched(relay, e)
  {
    StoredPositionPassesOnlyDisposedEvents(relay.cluster.site, relay.cluster.run, e);
    ConfirmedIsVouched(relay, e);
  }

  /**
    Order: whatever reached this relay's downstream, a failed send that arrived included, came
    after every event from the latest fresh start to it.
   */
  lemma OwnDeliveriesAscend(relay: Relay, j: nat, e: nat)
    requires relay.Valid() && Tidy(relay.cluster.site, INIT, relay.cluster.run)
    requires j < |relay.cluster.delivered| && relay.cluster.sys.anchor <= e < relay.cluster.delivered[j].item
    ensures relay.lane.downstream.log[j].pos == StuckKey(relay.cluster.event(relay.cluster.delivered[j].item))
    ensures Vouched(relay, e)
  {
    var c := relay.cluster;
    assert c.delivered[j].item in c.sys.touched && relay.lane.downstream.log[j] == c.delivered[j].what;
    DeliveriesAreDownwardClosed(c.site, c.run, e, c.delivered[j].item);
    ConfirmedIsVouched(relay, e);
  }

  /** Only the last event of one send settles it, and it does exactly when the lane advances. */
  lemma OneFate(v: Lanes.Verdict, hooks: Lanes.Hooks, d: Lanes.Disposition, key: string)
    requires hooks.Validated() && (d.Sent? <==> v.Accepts?) && (d.Parked? ==> hooks.poison)
    ensures var events := Lanes.SendEvents(v, key) + Lanes.Parking(hooks, d, key);
            && (forall k :: 0 <= k < |events| ==> events[k].pos == key)
            && (forall k :: 0 <= k < |events| - 1 ==> events[k].Reached?)
            && (Settles(events) <==> d.Sent? || d.Parked?)
  {
  }
}
