/** What one pass asks of the outside world, in order, and what obeying the lease means. */
module Journals {
  import opened Prelude

  datatype Answer = Yes | No | Failed

  /** What a page read: how many messages, and the row behind them that does not decode. */
  datatype Reading = Reading(decoded: nat, poison: Option<nat>) {
    function Rows(): nat { decoded + if poison.Some? then 1 else 0 }
  }

  datatype Act =
    | TryLease(answer: Answer)
    | ReadWatermark(found: Result<bool>)
    | StartLatest(ok: bool)             // registers the group at the newest seq
    | CommitWatermark(answer: Answer)   // No: the fence rejected it
    | SequenceRows(rows: Result<nat>)
    | ListPage(page: Result<Reading>)
    | Deliver                           // a send, or a batch of sends
    | HandOver(taken: bool)             // a message handed to the handler
    | SweepRows(rows: Result<nat>)

  /** The instance now knows it is not, or cannot tell whether it is, the leader. */
  predicate Loss(a: Act) {
    a == TryLease(No) || a == TryLease(Failed) || a == CommitWatermark(No)
  }

  /** Labelling rows and asking for the lease move no message and no watermark. */
  predicate Harmless(a: Act) {
    a.SequenceRows? || a.TryLease?
  }

  /** The store, or the elector behind it, answered with an error. */
  predicate Fails(a: Act) {
    match a
    case TryLease(answer) => answer == Failed
    case ReadWatermark(found) => found.Err?
    case StartLatest(ok) => !ok
    case CommitWatermark(answer) => answer == Failed
    case SequenceRows(rows) => rows.Err?
    case ListPage(page) => page.Err?
    case Deliver => false
    case HandOver(_) => false
    case SweepRows(rows) => rows.Err?
  }

  // ----- read off the end of the journal

  ghost predicate Lost(acts: seq<Act>) {
    acts != [] && (Loss(acts[|acts| - 1]) || Lost(acts[..|acts| - 1]))
  }

  ghost predicate Obedient(acts: seq<Act>) {
    acts == [] || (Obedient(acts[..|acts| - 1]) && (Lost(acts[..|acts| - 1]) ==> Harmless(acts[|acts| - 1])))
  }

  ghost predicate Listed(acts: seq<Act>) {
    acts != [] && (acts[|acts| - 1].ListPage? || Listed(acts[..|acts| - 1]))
  }

  /** Every page behind the first comes right after a renewed lease. */
  ghost predicate Renewed(acts: seq<Act>) {
    acts == []
    || (Renewed(acts[..|acts| - 1])
        && (acts[|acts| - 1].ListPage? && Listed(acts[..|acts| - 1]) ==> JustRenewed(acts[..|acts| - 1])))
  }

  ghost predicate JustRenewed(acts: seq<Act>) {
    acts != [] && acts[|acts| - 1] == TryLease(Yes)
  }

  /** What each page listed came to. */
  ghost function Listings(acts: seq<Act>): seq<Result<Reading>> {
    if acts == [] then []
    else Listings(acts[..|acts| - 1]) + if acts[|acts| - 1].ListPage? then [acts[|acts| - 1].page] else []
  }

  ghost predicate Labelling(acts: seq<Act>) {
    acts != [] && (acts[|acts| - 1].SequenceRows? || Labelling(acts[..|acts| - 1]))
  }

  /** Rows were labelled behind a loss. */
  ghost predicate Overruns(acts: seq<Act>) {
    && acts != []
    && (Overruns(acts[..|acts| - 1]) || (Lost(acts[..|acts| - 1]) && acts[|acts| - 1].SequenceRows?))
  }

  ghost predicate Failing(acts: seq<Act>) {
    acts != [] && (Fails(acts[|acts| - 1]) || Failing(acts[..|acts| - 1]))
  }

  /** The handler declined a message. */
  ghost predicate Refused(acts: seq<Act>) {
    acts != [] && (acts[|acts| - 1] == HandOver(false) || Refused(acts[..|acts| - 1]))
  }

  ghost predicate Unanswered(acts: seq<Act>) {
    acts != [] && (acts[|acts| - 1] == TryLease(Failed) || Unanswered(acts[..|acts| - 1]))
  }

  ghost predicate Swept(acts: seq<Act>) {
    acts != [] && (acts[|acts| - 1].SweepRows? || Swept(acts[..|acts| - 1]))
  }

  // ----- and what that means for the whole of it

  lemma {:induction false} LostMeansALoss(acts: seq<Act>)
    ensures Lost(acts) <==> exists k :: 0 <= k < |acts| && Loss(acts[k])
  {
    if acts != [] {
      var init := acts[..|acts| - 1];
      LostMeansALoss(init);
      if k :| 0 <= k < |init| && Loss(init[k]) {
        assert Loss(acts[k]);
      }
      if k :| 0 <= k < |acts| && Loss(acts[k]) {
        assert k < |init| ==> Loss(init[k]);
      }
    }
  }

  /** What a pass did stays done. */
  lemma {:induction false} DoneStays(before: seq<Act>, after: seq<Act>)
    requires before <= after
    ensures Labelling(before) ==> Labelling(after)
    ensures Listed(before) ==> Listed(after)
    decreases |after|
  {
    if |before| < |after| {
      DoneStays(before, after[..|after| - 1]);
    } else {
      assert before == after;
    }
  }

  lemma {:induction false} FailingMeansAFailure(acts: seq<Act>)
    ensures Failing(acts) <==> exists k :: 0 <= k < |acts| && Fails(acts[k])
    ensures Unanswered(acts) <==> TryLease(Failed) in acts
    ensures Refused(acts) <==> HandOver(false) in acts
  {
    if acts != [] {
      var init := acts[..|acts| - 1];
      FailingMeansAFailure(init);
      assert acts == init + [acts[|acts| - 1]];
      if k :| 0 <= k < |init| && Fails(init[k]) {
        assert Fails(acts[k]);
      }
      if k :| 0 <= k < |acts| && Fails(acts[k]) {
        assert k < |init| ==> Fails(init[k]);
      }
    }
  }

  lemma {:induction false} OverrunsMeansLabellingAfterALoss(acts: seq<Act>)
    ensures Overruns(acts) <==> exists j, k :: 0 <= j < k < |acts| && Loss(acts[j]) && acts[k].SequenceRows?
  {
    if acts != [] {
      var n := |acts| - 1;
      var init := acts[..n];
      OverrunsMeansLabellingAfterALoss(init);
      LostMeansALoss(init);
      assert forall k :: 0 <= k < n ==> init[k] == acts[k];
      if Overruns(init) {
        var j, k :| 0 <= j < k < n && Loss(init[j]) && init[k].SequenceRows?;
        assert Loss(acts[j]) && acts[k].SequenceRows?;
      } else if Overruns(acts) {
        var j :| 0 <= j < n && Loss(init[j]);
        assert Loss(acts[j]) && acts[n].SequenceRows?;
      } else {
        forall j, k | 0 <= j < k < |acts| && Loss(acts[j])
          ensures !acts[k].SequenceRows?
        {
          assert Loss(init[j]);
          assert k < n ==> !init[k].SequenceRows?;
        }
      }
    }
  }

  /** Behind a loss an obedient pass does nothing but label rows and ask for the lease. */
  lemma {:induction false} ObedientMeansNothingAfterALoss(acts: seq<Act>)
    ensures Obedient(acts) <==> forall j, k :: 0 <= j < k < |acts| && Loss(acts[j]) ==> Harmless(acts[k])
  {
    if acts != [] {
      var n := |acts| - 1;
      var init := acts[..n];
      ObedientMeansNothingAfterALoss(init);
      LostMeansALoss(init);
      assert forall k :: 0 <= k < n ==> init[k] == acts[k];
      if Obedient(acts) {
        forall j, k | 0 <= j < k < |acts| && Loss(acts[j])
          ensures Harmless(acts[k])
        {
          assert Loss(init[j]);
          assert k < n ==> Harmless(init[k]);
        }
      } else if Obedient(init) {
        var j :| 0 <= j < n && Loss(init[j]);
        assert Loss(acts[j]) && !Harmless(acts[n]);
      } else {
        var j, k :| 0 <= j < k < n && Loss(init[j]) && !Harmless(init[k]);
        assert Loss(acts[j]) && !Harmless(acts[k]);
      }
    }
  }

  class Journal {
    ghost var acts: seq<Act>

    constructor ()
      ensures acts == []
    {
      acts := [];
    }

    /** A new pass opens a new page. */
    ghost method Open()
      modifies this
      ensures acts == [] && Clear() && Renewed(acts) && Listings(acts) == []
      ensures !Listed(acts) && !Labelling(acts) && !Swept(acts) && !Overruns(acts)
      ensures !Failing(acts) && !Unanswered(acts) && !Refused(acts)
    {
      acts := [];
    }

    ghost method Note(a: Act)
      modifies this
      ensures Took(a)
    {
      acts := acts + [a];
      assert acts[..|acts| - 1] == old(acts);
    }

    /** Exactly this act was added. */
    twostate predicate Took(a: Act)
      reads this
    {
      && acts == old(acts) + [a]
      && (Lost(acts) <==> old(Lost(acts)) || Loss(a))
      && (Obedient(acts) <==> old(Obedient(acts)) && (old(Lost(acts)) ==> Harmless(a)))
      && (Listed(acts) <==> old(Listed(acts)) || a.ListPage?)
      && (Renewed(acts) <==> old(Renewed(acts)) && (a.ListPage? && old(Listed(acts)) ==> old(JustRenewed(acts))))
      && Listings(acts) == old(Listings(acts)) + (if a.ListPage? then [a.page] else [])
      && (Labelling(acts) <==> old(Labelling(acts)) || a.SequenceRows?)
      && (Swept(acts) <==> old(Swept(acts)) || a.SweepRows?)
      && (Overruns(acts) <==> old(Overruns(acts)) || (old(Lost(acts)) && a.SequenceRows?))
      && (Failing(acts) <==> old(Failing(acts)) || Fails(a))
      && (Unanswered(acts) <==> old(Unanswered(acts)) || a == TryLease(Failed))
      && (Refused(acts) <==> old(Refused(acts)) || a == HandOver(false))
    }

    /** What was added are deliveries. */
    twostate predicate Delivered()
      reads this
    {
      && old(acts) <= acts && (forall k :: |old(acts)| <= k < |acts| ==> acts[k].Deliver? || acts[k].HandOver?)
      && (Lost(acts) <==> old(Lost(acts)))
      && (old(Obedient(acts) && !Lost(acts)) ==> Obedient(acts))
      && (Listed(acts) <==> old(Listed(acts)))
      && Listings(acts) == old(Listings(acts))
      && (old(Renewed(acts)) ==> Renewed(acts))
      && (old(Labelling(acts)) ==> Labelling(acts))
      && (Swept(acts) <==> old(Swept(acts)))
      && (Overruns(acts) <==> old(Overruns(acts)))
      && (Failing(acts) <==> old(Failing(acts))) && (Unanswered(acts) <==> old(Unanswered(acts)))
    }

    /** The pass has lost nothing and overstepped nothing so far. */
    ghost predicate Clear()
      reads this
    {
      Obedient(acts) && !Lost(acts)
    }
  }
}
