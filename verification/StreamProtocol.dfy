/**
  The change-stream outbox as one state machine: the insert log, one group's stored position,
  and the cursor of every process that serves the group. Position `p` lies between events
  `p - 1` and `p`. A label is one store call, one cursor move or one delivery event, and
  `Next` is total: a label that is not enabled changes nothing.
 */
module StreamProtocol {
  import opened Prelude
  import opened TokenKeys
  import opened TokenStores

  /** Where each resume token resumes, and its KeyString payload. */
  datatype Site = Site(place: string -> nat, payload: string -> Option<string>)

  /**
    `next` is the event the cursor serves next. `safe` is where its work stands: at `next`, or just
    before the event served last while that one is not disposed of.
   */
  datatype Cursor = Closed | Loaded(from: Option<nat>) | Open(next: nat, safe: nat)

  datatype Local = Local(baseline: Option<nat>, cursor: Cursor)

  datatype Sys = Sys(
    oplog: nat,                       // events inserted so far
    row: Option<TokenRow<string>>,    // the group's stored token
    locals: map<nat, Local>,
    // history
    anchor: nat,                      // where the latest fresh start began
    confirmed: set<nat>,              // acknowledged by the broker or confirmed parked
    touched: set<nat>,                // may have reached the broker, or was parked
    stored: set<string>,              // every token the store ever held
    late: set<(string, int)>)         // saves given up on: each may still land, at any time

  datatype Label =
    | Insert
    | Load(who: nat)
    | Watch(who: nat)
    | Remember(who: nat)              // a fresh start's baseline, in memory
    | Pull(who: nat)
    | Reach(who: nat, item: nat)      // a send of the event just served that may have arrived
    | Dispose(who: nat, item: nat)    // acknowledged, or confirmed parked
    | Persist(who: nat, token: string, time: int)    // a save, answered
    | Abandon(who: nat, token: string, time: int)    // a save sent and given up on
    | Land(token: string, time: int)                 // ... and applied, however much later
    | Close(who: nat)
    | Restart(who: nat)

  const INIT := Sys(0, None, map[], 0, {}, {}, {}, {})

  function LocalOf(s: Sys, i: nat): Local {
    if i in s.locals then s.locals[i] else Local(None, Closed)
  }

  function CursorOf(s: Sys, i: nat): Cursor { LocalOf(s, i).cursor }

  function Move(s: Sys, i: nat, c: Cursor): Sys {
    s.(locals := s.locals[i := LocalOf(s, i).(cursor := c)])
  }

  function Keep(s: Sys, i: nat, baseline: Option<nat>): Sys {
    s.(locals := s.locals[i := LocalOf(s, i).(baseline := baseline)])
  }

  /** Where a store row resumes. */
  function Stored(site: Site, s: Sys): Option<nat> {
    if s.row.Some? then Some(site.place(s.row.value.token)) else None
  }

  /** The stored position, or else the process's own baseline, or else nothing: a fresh start. */
  function ResumeFrom(site: Site, s: Sys, i: nat): Option<nat> {
    if s.row.Some? then Stored(site, s) else LocalOf(s, i).baseline
  }

  predicate Clean(c: Cursor) { c.Open? && c.next == c.safe }

  /** Event `e` is the one the cursor served last, and it is not disposed of. */
  predicate Serving(c: Cursor, e: nat) { c.Open? && c.safe <= e && c.next == e + 1 }

  function SaveResult(site: Site, s: Sys, token: string, time: int): (Option<TokenRow<string>>, bool) {
    Saved(s.row, token, KeyOf(site.payload(token)), time)
  }

  /** A cursor's process saves where its work stands, or its cursor's head. */
  predicate MaySave(site: Site, c: Cursor, token: string) {
    c.Open? && token != "" && site.place(token) in {c.safe, c.next}
  }

  function Save(site: Site, s: Sys, token: string, time: int): Sys {
    var (row, persisted) := SaveResult(site, s, token, time);
    s.(row := row, stored := if persisted then s.stored + {token} else s.stored)
  }

  function Next(site: Site, s: Sys, l: Label): Sys {
    match l
    case Insert => s.(oplog := s.oplog + 1)
    case Load(i) =>
      if CursorOf(s, i).Open? then s else Move(s, i, Loaded(ResumeFrom(site, s, i)))
    case Watch(i) =>
      var c := CursorOf(s, i);
      if !c.Loaded? then s
      else if c.from.Some? then Move(s, i, Open(c.from.value, c.from.value))
      else Move(s, i, Open(s.oplog, s.oplog)).(anchor := s.oplog)
    case Remember(i) =>
      if Clean(CursorOf(s, i)) then Keep(s, i, Some(CursorOf(s, i).safe)) else s
    case Pull(i) =>
      var c := CursorOf(s, i);
      if c.Open? && c.next < s.oplog then Move(s, i, Open(c.next + 1, c.next)) else s
    case Reach(i, e) =>
      if Serving(CursorOf(s, i), e) then s.(touched := s.touched + {e}) else s
    case Dispose(i, e) =>
      var c := CursorOf(s, i);
      if Serving(c, e)
      then Move(s, i, c.(safe := c.next)).(confirmed := s.confirmed + {e}, touched := s.touched + {e})
      else s
    case Persist(i, token, time) =>
      if MaySave(site, CursorOf(s, i), token) then
        var t := Save(site, s, token, time);
        if SaveResult(site, s, token, time).1 then Keep(t, i, None) else t
      else s
    case Abandon(i, token, time) =>
      if MaySave(site, CursorOf(s, i), token) then s.(late := s.late + {(token, time)}) else s
    case Land(token, time) => if (token, time) in s.late then Save(site, s, token, time) else s
    case Close(i) => Move(s, i, Closed)
    case Restart(i) => s.(locals := s.locals[i := Local(None, Closed)])
  }

  function Actor(l: Label): Option<nat> {
    if l.Insert? || l.Land? then None else Some(l.who)
  }

  /** The state a run of labels leads to from `s`. */
  function Play(site: Site, s: Sys, run: seq<Label>): Sys {
    if run == [] then s
    else Next(site, Play(site, s, run[..|run| - 1]), run[|run| - 1])
  }

  lemma PlayOne(site: Site, s: Sys, run: seq<Label>, l: Label)
    ensures Play(site, s, run + [l]) == Next(site, Play(site, s, run), l)
  {
    assert (run + [l])[..|run|] == run;
  }

  lemma {:induction false} PlaySplits(site: Site, s: Sys, run: seq<Label>, more: seq<Label>)
    ensures Play(site, s, run + more) == Play(site, Play(site, s, run), more)
  {
    if more == [] {
      assert run + more == run;
    } else {
      var k := |more| - 1;
      PlaySplits(site, s, run, more[..k]);
      assert run + more == run + more[..k] + [more[k]];
      PlayOne(site, s, run + more[..k], more[k]);
    }
  }

  // ----- what driving Run adds to driving RunOnce

  /** The event before `p` is owed, and nobody has disposed of it. */
  predicate Loose(s: Sys, p: nat) {
    s.anchor < p && p - 1 !in s.confirmed
  }

  /** The cursor has served an event that is owed, and nobody has disposed of it. */
  predicate Torn(s: Sys, c: Cursor) {
    c.Open? && c.safe < c.next && Loose(s, c.next)
  }

  /** Serving on past such an event, or storing a position behind it. */
  predicate Skips(site: Site, s: Sys, l: Label) {
    match l
    case Pull(i) => Torn(s, CursorOf(s, i)) && CursorOf(s, i).next < s.oplog
    case Persist(i, token, time) =>
      && Torn(s, CursorOf(s, i)) && token != "" && site.place(token) == CursorOf(s, i).next
      && SaveResult(site, s, token, time).1
    case Land(token, time) =>
      (token, time) in s.late && Loose(s, site.place(token)) && SaveResult(site, s, token, time).1
    case _ => false
  }

  /** No step skips an event. Run, which closes every cursor that stopped short, sees to that. */
  ghost predicate Tidy(site: Site, s: Sys, run: seq<Label>) {
    run == [] || (Tidy(site, s, run[..|run| - 1]) && !Skips(site, Play(site, s, run[..|run| - 1]), run[|run| - 1]))
  }

  /** Wherever a save given up on lands, it skips nothing. */
  ghost predicate Firm(site: Site, s: Sys) {
    forall token, time :: (token, time) in s.late ==> !Loose(s, site.place(token))
  }

  /** A save at a loose position, even one nobody will hear of. */
  predicate SendsLoose(site: Site, s: Sys, l: Label) {
    l.Abandon? && MaySave(site, CursorOf(s, l.who), l.token) && Loose(s, site.place(l.token))
  }

  /** What no process that drives Run does. A save that lands is nobody's doing any more. */
  predicate Careless(site: Site, s: Sys, l: Label) {
    SendsLoose(site, s, l) || (Skips(site, s, l) && !l.Land?)
  }

  lemma StepStaysFirm(site: Site, s: Sys, l: Label)
    requires Firm(site, s) && !Careless(site, s, l) && s.anchor <= s.oplog
    ensures Firm(site, Next(site, s, l)) && !Skips(site, s, l)
  {
    StepGrows(site, s, l);
  }

  lemma TidyOne(site: Site, s: Sys, run: seq<Label>, l: Label)
    ensures Tidy(site, s, run + [l]) <==> Tidy(site, s, run) && !Skips(site, Play(site, s, run), l)
  {
    assert (run + [l])[..|run|] == run;
  }

  lemma {:induction false} TidySplits(site: Site, s: Sys, run: seq<Label>, more: seq<Label>)
    ensures Tidy(site, s, run + more) <==> Tidy(site, s, run) && Tidy(site, Play(site, s, run), more)
  {
    if more == [] {
      assert run + more == run;
    } else {
      var k := |more| - 1;
      TidySplits(site, s, run, more[..k]);
      PlaySplits(site, s, run, more[..k]);
      assert run + more == run + more[..k] + [more[k]];
      TidyOne(site, s, run + more[..k], more[k]);
    }
  }

  // ----- what even an untidy run keeps

  ghost predicate Sane(site: Site, s: Sys) {
    && s.anchor <= s.oplog
    && (s.row.Some? ==> s.row.value.token != "" && s.row.value.token in s.stored && Written(site, s.row.value))
    && (forall token, time :: (token, time) in s.late ==> token != "")
    && forall i: nat :: CursorOf(s, i).Open? ==> CursorOf(s, i).safe <= CursorOf(s, i).next <= CursorOf(s, i).safe + 1
  }

  /** A row as a save writes it. */
  predicate Written(site: Site, row: TokenRow<string>) {
    row.key == KeyOf(site.payload(row.token)) && row.time.Some?
  }

  lemma {:induction false} EveryRunIsSane(site: Site, run: seq<Label>)
    ensures Sane(site, Play(site, INIT, run))
  {
    if run != [] {
      EveryRunIsSane(site, run[..|run| - 1]);
      StepStaysSane(site, Play(site, INIT, run[..|run| - 1]), run[|run| - 1]);
    }
  }

  lemma StepStaysSane(site: Site, s: Sys, l: Label)
    requires Sane(site, s)
    ensures Sane(site, Next(site, s, l))
  {
    var t := Next(site, s, l);
    forall i: nat
      ensures CursorOf(t, i).Open? ==> CursorOf(t, i).safe <= CursorOf(t, i).next <= CursorOf(t, i).safe + 1
    {
      assert CursorOf(s, i).Open? ==> CursorOf(s, i).safe <= CursorOf(s, i).next <= CursorOf(s, i).safe + 1;
    }
  }

  // ----- the invariant

  /** Every event from the latest fresh start up to `p` is disposed of. */
  ghost predicate Covered(s: Sys, p: nat) {
    p <= s.oplog && forall e: nat :: s.anchor <= e < p ==> e in s.confirmed
  }

  /** Every one but the last. */
  ghost predicate Nearly(s: Sys, p: nat) {
    p <= s.oplog && forall e: nat :: s.anchor <= e < p - 1 ==> e in s.confirmed
  }

  ghost predicate CursorHolds(s: Sys, c: Cursor) {
    match c
    case Closed => true
    case Loaded(from) => from.Some? ==> Covered(s, from.value)
    case Open(next, safe) => safe <= next <= safe + 1 && next <= s.oplog && Covered(s, safe)
  }

  ghost predicate LocalHolds(s: Sys, i: nat) {
    && (LocalOf(s, i).baseline.Some? ==> Covered(s, LocalOf(s, i).baseline.value))
    && CursorHolds(s, CursorOf(s, i))
  }

  ghost predicate Inv(site: Site, s: Sys) {
    && s.anchor <= s.oplog
    && (s.row.Some? ==> s.row.value.token != "" && s.row.value.token in s.stored && Covered(s, Stored(site, s).value))
    && (forall i: nat :: LocalHolds(s, i))
    && (forall e: nat :: e in s.touched ==> Covered(s, e))
    && (forall token, time :: (token, time) in s.late ==> token != "" && Nearly(s, site.place(token)))
    && s.confirmed <= s.touched
  }

  /** What is covered stays so while the log, the disposals and the anchor only grow. */
  lemma CoveredCarries(s: Sys, t: Sys, p: nat)
    requires Covered(s, p) && s.oplog <= t.oplog && s.confirmed <= t.confirmed && s.anchor <= t.anchor
    ensures Covered(t, p)
  {
  }

  lemma StepGrows(site: Site, s: Sys, l: Label)
    requires s.anchor <= s.oplog
    ensures var t := Next(site, s, l);
            && s.oplog <= t.oplog && s.confirmed <= t.confirmed && s.touched <= t.touched && s.stored <= t.stored
            && s.anchor <= t.anchor <= t.oplog && (s.row.Some? ==> t.row.Some?) && s.late <= t.late
  {
  }

  lemma BaselineHolds(site: Site, s: Sys, l: Label)
    requires Inv(site, s) && !l.Insert? && !l.Land?
    ensures var t := Next(site, s, l);
            LocalOf(t, l.who).baseline.Some? ==> Covered(t, LocalOf(t, l.who).baseline.value)
  {
    var t := Next(site, s, l);
    StepGrows(site, s, l);
    assert LocalHolds(s, l.who);
    if LocalOf(t, l.who).baseline.Some? {
      CoveredCarries(s, t, LocalOf(t, l.who).baseline.value);
    }
  }

  /** Disposing of the event just served covers it too. */
  lemma DisposedIsCovered(site: Site, s: Sys, i: nat, e: nat)
    requires Inv(site, s) && Serving(CursorOf(s, i), e)
    ensures var t := Next(site, s, Dispose(i, e)); CursorHolds(t, CursorOf(t, i))
  {
    var t := Next(site, s, Dispose(i, e));
    StepGrows(site, s, Dispose(i, e));
    assert LocalHolds(s, i);
    CoveredCarries(s, t, CursorOf(s, i).safe);
  }

  /** Every other tidy step leaves the cursor at a position that was covered, or starts it fresh. */
  lemma CursorStillHolds(site: Site, s: Sys, l: Label)
    requires Inv(site, s) && !Skips(site, s, l) && !l.Insert? && !l.Land? && !l.Dispose?
    ensures var t := Next(site, s, l); CursorHolds(t, CursorOf(t, l.who))
  {
    var t := Next(site, s, l);
    StepGrows(site, s, l);
    assert LocalHolds(s, l.who);
    forall p | Covered(s, p)
      ensures Covered(t, p)
    {
      CoveredCarries(s, t, p);
    }
  }

  /** A tidy step leaves the acting process where it may be. */
  lemma ActorHolds(site: Site, s: Sys, l: Label)
    requires Inv(site, s) && !Skips(site, s, l) && !l.Insert? && !l.Land?
    ensures LocalHolds(Next(site, s, l), l.who)
  {
    hide Covered, Inv;
    BaselineHolds(site, s, l);
    if !l.Dispose? {
      CursorStillHolds(site, s, l);
    } else if Serving(CursorOf(s, l.who), l.item) {
      DisposedIsCovered(site, s, l.who, l.item);
    } else {
      assert LocalHolds(s, l.who) by { InvLocal(site, s, l.who); }
    }
  }

  lemma InvLocal(site: Site, s: Sys, i: nat)
    requires Inv(site, s)
    ensures LocalHolds(s, i)
  {
  }

  lemma OthersHold(site: Site, s: Sys, l: Label, i: nat)
    requires Inv(site, s) && Actor(l) != Some(i)
    ensures LocalHolds(Next(site, s, l), i)
  {
    var t := Next(site, s, l);
    StepGrows(site, s, l);
    assert LocalHolds(s, i) && LocalOf(t, i) == LocalOf(s, i);
    forall p | Covered(s, p)
      ensures Covered(t, p)
    {
      CoveredCarries(s, t, p);
    }
  }

  lemma TouchedHolds(site: Site, s: Sys, l: Label)
    requires Inv(site, s) && !Skips(site, s, l)
    ensures forall e: nat :: e in Next(site, s, l).touched ==> Covered(Next(site, s, l), e)
    ensures Next(site, s, l).confirmed <= Next(site, s, l).touched
  {
    var t := Next(site, s, l);
    StepGrows(site, s, l);
    forall e: nat | e in t.touched
      ensures Covered(t, e)
    {
      if e in s.touched {
        CoveredCarries(s, t, e);
      } else {
        assert LocalHolds(s, l.who);
        CoveredCarries(s, t, e);
      }
    }
  }

  lemma StepKeeps(site: Site, s: Sys, l: Label)
    requires Inv(site, s) && !Skips(site, s, l)
    ensures Inv(site, Next(site, s, l))
  {
    var t := Next(site, s, l);
    StepGrows(site, s, l);
    TouchedHolds(site, s, l);
    forall i: nat
      ensures LocalHolds(t, i)
    {
      if Actor(l) == Some(i) {
        ActorHolds(site, s, l);
      } else {
        OthersHold(site, s, l, i);
      }
    }
    RowHolds(site, s, l);
    LateHolds(site, s, l);
  }

  /** The stored position is covered: it is where a process stood, or where a late save has come to stand. */
  lemma RowHolds(site: Site, s: Sys, l: Label)
    requires Inv(site, s) && !Skips(site, s, l)
    ensures var t := Next(site, s, l);
            t.row.Some? ==>
              t.row.value.token != "" && t.row.value.token in t.stored && Covered(t, Stored(site, t).value)
  {
    var t := Next(site, s, l);
    StepGrows(site, s, l);
    if t.row.Some? && t.row == s.row {
      CoveredCarries(s, t, Stored(site, s).value);
    } else if t.row.Some? {
      var p := Stored(site, t).value;
      if l.Persist? {
        assert LocalHolds(s, l.who);
      }
      assert Nearly(s, p) && !Loose(s, p);
      CoveredCarries(s, t, p);
    }
  }

  lemma LateHolds(site: Site, s: Sys, l: Label)
    requires Inv(site, s)
    ensures var t := Next(site, s, l);
            forall token, time :: (token, time) in t.late ==> token != "" && Nearly(t, site.place(token))
  {
    var t := Next(site, s, l);
    StepGrows(site, s, l);
    if l.Abandon? {
      assert LocalHolds(s, l.who);
    }
  }

  /** Every tidy run of any number of processes keeps the invariant. */
  lemma {:induction false} EveryTidyRunKeeps(site: Site, run: seq<Label>)
    requires Tidy(site, INIT, run)
    ensures Inv(site, Play(site, INIT, run))
  {
    if run != [] {
      EveryTidyRunKeeps(site, run[..|run| - 1]);
      StepKeeps(site, Play(site, INIT, run[..|run| - 1]), run[|run| - 1]);
    }
  }
}
