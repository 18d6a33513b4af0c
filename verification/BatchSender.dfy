/** The RabbitMQ sender: one event at a time, or a batch whose confirms are awaited together. */
module BatchSenders {
  import opened Prelude

  datatype Outgoing = Outgoing(id: nat)

  datatype Confirm = Ack | Nack | NoAnswer

  /**
    One try of a Process call. Without a connection the callback does not run. With one, the
    context may be dead, the handshake may fail, and each publish meets its own fate.
   */
  datatype Try =
    | NoConnection(code: nat)
    | Connects(dead: bool, handshake: Option<nat>, writes: nat -> bool, confirms: nat -> Confirm, returned: bool)

  /** `about` is the index of the message an error is about. */
  datatype Error =
    | Unprepared(about: nat, reason: nat)   // the marshaler's or router's own error
    | NotWritten(about: nat)
    | NotAnswered(about: nat)
    | NotConfirmed(about: nat)
    | Unroutable(about: nat)
    | ContextDead
    | NoHandshake(code: nat)
    | PoolFault(code: nat)

  predicate Indexed(e: Error) {
    e.Unprepared? || e.NotWritten? || e.NotAnswered? || e.NotConfirmed? || e.Unroutable?
  }

  // ----- what one try comes to

  /** The publish was written and the broker acknowledged it. */
  predicate Accepted(t: Try, i: nat)
    requires t.Connects?
  {
    t.writes(i) && t.confirms(i) == Ack
  }

  predicate Ready(t: Try) {
    t.Connects? && !t.dead && t.handshake.None?
  }

  /** The contiguous accepted prefix of the messages from `i` on. */
  function Prefix(t: Try, i: nat, n: nat): (k: nat)
    requires t.Connects? && i <= n
    ensures i <= k <= n
    ensures forall j :: i <= j < k ==> Accepted(t, j)
    ensures k < n ==> !Accepted(t, k)
    decreases n - i
  {
    if i < n && Accepted(t, i) then Prefix(t, i + 1, n) else i
  }

  /** Nothing else is a contiguous accepted prefix that ends at a message not accepted. */
  lemma {:induction false} PrefixIsTheOne(t: Try, i: nat, n: nat, k: nat)
    requires t.Connects? && i <= k <= n
    requires (forall j :: i <= j < k ==> Accepted(t, j)) && (k < n ==> !Accepted(t, k))
    ensures Prefix(t, i, n) == k
    decreases k - i
  {
    if i < k {
      PrefixIsTheOne(t, i + 1, n, k);
    }
  }

  /** Why message `k` was not accepted. */
  function Fate(t: Try, k: nat): Error
    requires t.Connects? && !Accepted(t, k)
  {
    if !t.writes(k) then NotWritten(k)
    else if t.confirms(k) == Nack then NotConfirmed(k)
    else NotAnswered(k)
  }

  /** The acked prefix and the error of one run of the callback over `n` messages. */
  function Outcome(t: Try, n: nat): (r: (nat, Option<Error>))
    requires t.Connects?
    ensures r.1.None? <==> r.0 == n && Ready(t)
    ensures r.1.Some? ==> !r.1.value.Unprepared? && (Indexed(r.1.value) ==> r.1.value.about == r.0 < n)
  {
    if t.dead then (0, Some(ContextDead))
    else if t.handshake.Some? then (0, Some(NoHandshake(t.handshake.value)))
    else
      var k := Prefix(t, 0, n);
      (k, if k == n then None else Some(Fate(t, k)))
  }

  // ----- the pipelined publish

  /** The variables the Process callback shares with its caller. */
  class Pipeline {
    const n: nat
    var acked: nat
    var ackErr: Option<Error>
    var confirm: seq<nat>            // the publishes whose confirms are outstanding, in order

    constructor (n: nat)
      ensures this.n == n && acked == 0
    {
      this.n := n;
      acked, ackErr, confirm := 0, None, [];
    }

    /** The callback: publish everything, then collect up to the first message not acked. */
    method Callback(t: Try) returns (err: Option<Error>)
      requires t.Connects?
      modifies this
      ensures (acked, err) == Outcome(t, n)
    {
      acked, ackErr, confirm := 0, None, [];
      if t.dead {
        return Some(ContextDead);
      }
      if t.handshake.Some? {
        return Some(NoHandshake(t.handshake.value));
      }
      var pubErr := Publish(t);
      Collect(t);
      PrefixIsTheOne(t, 0, n, acked);
      if ackErr.Some? {
        return ackErr;
      }
      return pubErr;
    }

    /** Stops at the first publish that fails. */
    method Publish(t: Try) returns (pubErr: Option<Error>)
      requires t.Connects? && confirm == []
      modifies this`confirm
      ensures |confirm| <= n && forall j :: 0 <= j < |confirm| ==> confirm[j] == j && t.writes(j)
      ensures pubErr == if |confirm| < n then Some(NotWritten(|confirm|)) else None
      ensures |confirm| < n ==> !t.writes(|confirm|)
    {
      for i := 0 to n
        invariant |confirm| == i && forall j :: 0 <= j < i ==> confirm[j] == j && t.writes(j)
      {
        if !t.writes(i) {
          return Some(NotWritten(i));
        }
        confirm := confirm + [i];
      }
      return None;
    }

    /** Stops at the first message that is not acked, whatever is acked behind it. */
    method Collect(t: Try)
      requires t.Connects? && acked == 0 && ackErr.None?
      requires |confirm| <= n && forall j :: 0 <= j < |confirm| ==> confirm[j] == j && t.writes(j)
      modifies this`acked, this`ackErr
      ensures acked <= |confirm| && forall j :: 0 <= j < acked ==> t.confirms(j) == Ack
      ensures if acked == |confirm| then ackErr.None? else t.confirms(acked) != Ack && ackErr == Some(Fate(t, acked))
    {
      for i := 0 to |confirm|
        invariant acked == i && ackErr.None? && forall j :: 0 <= j < i ==> t.confirms(j) == Ack
      {
        if t.confirms(confirm[i]) == NoAnswer {
          ackErr := Some(NotAnswered(i));
          return;
        }
        if t.confirms(confirm[i]) == Nack {
          ackErr := Some(NotConfirmed(i));
          return;
        }
        acked := i + 1;
      }
    }
  }

  // ----- a whole Process call

  /** The last try that ran the callback. */
  function LastRun(tries: seq<Try>): (k: Option<nat>)
    ensures k.Some? ==> k.value < |tries| && tries[k.value].Connects?
    ensures forall j :: (if k.Some? then k.value + 1 else 0) <= j < |tries| ==> tries[j].NoConnection?
  {
    if tries == [] then None
    else if tries[|tries| - 1].Connects? then Some(|tries| - 1)
    else LastRun(tries[..|tries| - 1])
  }

  /** What Process reports: the last try's result, and a pool fault when there was none. */
  function Reported(tries: seq<Try>, n: nat): Option<Error> {
    if tries == [] then Some(PoolFault(0))
    else
      var last := tries[|tries| - 1];
      if last.NoConnection? then Some(PoolFault(last.code)) else Outcome(last, n).1
  }

  /** A complete attempt whose success was not what Process reported. */
  predicate Overtaken(tries: seq<Try>, n: nat) {
    var k := LastRun(tries);
    k.Some? && k.value < |tries| - 1 && Outcome(tries[k.value], n).1.None?
  }

  /** [0, sent) were all acknowledged within one attempt. */
  ghost predicate AckedInOneAttempt(tries: seq<Try>, sent: nat) {
    sent == 0 || exists k :: 0 <= k < |tries| && Ready(tries[k]) && forall j :: 0 <= j < sent ==> Accepted(tries[k], j)
  }

  lemma {:induction false} LastRunStands(tries: seq<Try>, n: nat)
    ensures var k := LastRun(tries);
            var sent := if k.Some? then Outcome(tries[k.value], n).0 else 0;
            var err := Reported(tries, n);
            && sent <= n && AckedInOneAttempt(tries, sent)
            && (err.None? ==> sent == n)
            && (n > 0 ==> ((err.None? <==> sent == n) <==> !Overtaken(tries, n)))
            && (err.Some? ==> !err.value.Unprepared? && (Indexed(err.value) ==> err.value.about == sent))
  {
    var k := LastRun(tries);
    if k.Some? {
      var t := tries[k.value];
      if Outcome(t, n).0 > 0 {
        assert Ready(t) && forall j :: 0 <= j < Outcome(t, n).0 ==> Accepted(t, j);
      }
    }
  }

  /**
    If Process can report a failure of its own behind a complete attempt, here a pool fault on a
    retry, then a batch comes with an error on top of all its messages.
   */
  lemma OvertakenHappens(n: nat, code: nat)
    ensures var tries := [Connects(false, None, _ => true, _ => Ack, false), NoConnection(code)];
            var k := LastRun(tries);
            && Overtaken(tries, n) && Reported(tries, n) == Some(PoolFault(code))
            && k.Some? && Outcome(tries[k.value], n).0 == n
  {
    var whole := Connects(false, None, _ => true, _ => Ack, false);
    var tries := [whole, NoConnection(code)];
    assert tries[..1] == [whole];
    PrefixIsTheOne(whole, 0, n, n);
  }

  // ----- the sender

  class Sender {
    const confirms: bool
    const mandatory: bool
    const prepares: Outgoing -> Option<nat>    // the marshaler's and router's error for a message
    const plan: nat -> seq<Try>                // the tries of the k-th Process call
    var calls: nat

    constructor (confirms: bool, mandatory: bool, prepares: Outgoing -> Option<nat>, plan: nat -> seq<Try>)
      ensures calls == 0
    {
      this.confirms, this.mandatory, this.prepares, this.plan := confirms, mandatory, prepares, plan;
      calls := 0;
    }

    predicate Pipelines() { confirms && !mandatory }

    /** One publish under the sender's options. */
    predicate Delivers(t: Try) {
      && t.Connects? && !t.dead && t.writes(0)
      && (confirms ==> t.handshake.None? && t.confirms(0) == Ack && (mandatory ==> !t.returned))
    }

    /** One event; `i` only names it in the error. */
    method Send(m: Outgoing, i: nat) returns (err: Option<Error>)
      modifies this`calls
      ensures prepares(m).Some? ==> err == Some(Unprepared(i, prepares(m).value)) && calls == old(calls)
      ensures prepares(m).None? ==> calls == old(calls) + 1
      ensures err.None? <==>
                var tries := plan(old(calls));
                prepares(m).None? && tries != [] && Delivers(tries[|tries| - 1])
      ensures err.Some? && Indexed(err.value) ==> err.value.about == i
      ensures err.Some? && err.value.Unprepared? ==> prepares(m) == Some(err.value.reason)
    {
      if prepares(m).Some? {
        return Some(Unprepared(i, prepares(m).value));
      }
      var tries := plan(calls);
      calls := calls + 1;
      err := Some(PoolFault(0));
      for k := 0 to |tries|
        invariant calls == old(calls) + 1
        invariant err.None? <==> k > 0 && Delivers(tries[k - 1])
        invariant err.Some? ==> !err.value.Unprepared? && (Indexed(err.value) ==> err.value.about == i)
      {
        err := SendOnce(tries[k], i);
      }
    }

    method SendOnce(t: Try, i: nat) returns (err: Option<Error>)
      ensures err.None? <==> Delivers(t)
      ensures err.Some? ==> !err.value.Unprepared? && (Indexed(err.value) ==> err.value.about == i)
    {
      if t.NoConnection? {
        return Some(PoolFault(t.code));
      }
      if t.dead {
        return Some(ContextDead);
      }
      if !confirms {
        return if t.writes(0) then None else Some(NotWritten(i));
      }
      if t.handshake.Some? {
        return Some(NoHandshake(t.handshake.value));
      }
      if !t.writes(0) {
        return Some(NotWritten(i));
      }
      if t.confirms(0) == NoAnswer {
        return Some(NotAnswered(i));
      }
      if mandatory && t.returned {
        return Some(Unroutable(i));
      }
      if t.confirms(0) == Nack {
        return Some(NotConfirmed(i));
      }
      return None;
    }

    /** The k-th message's own Process call delivered it. */
    ghost predicate SentAlone(from: nat, k: nat) {
      plan(from + k) != [] && Delivers(plan(from + k)[|plan(from + k)| - 1])
    }

    method SendSerial(msgs: seq<Outgoing>) returns (sent: nat, err: Option<Error>)
      modifies this`calls
      ensures sent <= |msgs| && (err.None? <==> sent == |msgs|)
      ensures forall k :: 0 <= k < sent ==> SentAlone(old(calls), k)
      ensures err.Some? && Indexed(err.value) ==> err.value.about == sent
      ensures err.Some? && err.value.Unprepared? ==> prepares(msgs[sent]) == Some(err.value.reason)
    {
      for i := 0 to |msgs|
        invariant calls == old(calls) + i
        invariant forall k :: 0 <= k < i ==> SentAlone(old(calls), k)
      {
        err := Send(msgs[i], i);
        if err.Some? {
          return i, err;
        }
        assert SentAlone(old(calls), i);
      }
      return |msgs|, None;
    }

    /** Runs the callback as often as Process pleases; the prefix is the last run's. */
    method PublishPipelined(n: nat) returns (acked: nat, err: Option<Error>)
      modifies this`calls
      ensures calls == old(calls) + 1
      ensures acked <= n && AckedInOneAttempt(plan(old(calls)), acked)
      ensures err.None? ==> acked == n
      ensures n > 0 ==> ((err.None? <==> acked == n) <==> !Overtaken(plan(old(calls)), n))
      ensures err.Some? ==> !err.value.Unprepared? && (Indexed(err.value) ==> err.value.about == acked)
    {
      var tries := plan(calls);
      calls := calls + 1;
      var p := new Pipeline(n);
      err := Some(PoolFault(0));
      for k := 0 to |tries|
        invariant p.n == n && calls == old(calls) + 1
        invariant err == Reported(tries[..k], n)
        invariant var r := LastRun(tries[..k]);
                  p.acked == if r.Some? then Outcome(tries[r.value], n).0 else 0
      {
        assert tries[..k + 1][..k] == tries[..k];
        if tries[k].NoConnection? {
          err := Some(PoolFault(tries[k].code));
        } else {
          err := p.Callback(tries[k]);
        }
      }
      assert tries[..|tries|] == tries;
      LastRunStands(tries, n);
      acked := p.acked;
    }

    /** How many messages from the first on the sender can encode and route. */
    method Prepare(msgs: seq<Outgoing>) returns (n: nat, err: Option<Error>)
      ensures n <= |msgs| && (forall k :: 0 <= k < n ==> prepares(msgs[k]).None?)
      ensures if n == |msgs| then err.None?
              else prepares(msgs[n]).Some? && err == Some(Unprepared(n, prepares(msgs[n]).value))
    {
      for i := 0 to |msgs|
        invariant forall k :: 0 <= k < i ==> prepares(msgs[k]).None?
      {
        if prepares(msgs[i]).Some? {
          return i, Some(Unprepared(i, prepares(msgs[i]).value));
        }
      }
      return |msgs|, None;
    }

    /**
      The batch contract: the first `sent` messages were acknowledged, pipelined ones all within
      one attempt; there is no error exactly when that is all of them; an error that names a
      message names the next one. It fails only where Process reports a failure of its own on
      top of a complete attempt.
     */
    method SendBatch(msgs: seq<Outgoing>) returns (sent: nat, err: Option<Error>)
      modifies this`calls
      ensures sent <= |msgs|
      ensures err.None? ==> sent == |msgs|
      ensures Pipelines() ==> AckedInOneAttempt(plan(old(calls)), sent)
      ensures !Pipelines() ==> forall k :: 0 <= k < sent ==> SentAlone(old(calls), k)
      ensures sent == |msgs| && err.Some? <==> msgs != [] && Pipelines() && EveryOneReady(msgs)
                                               && Overtaken(plan(old(calls)), |msgs|)
      ensures err.Some? && Indexed(err.value) ==> err.value.about == sent
      ensures err.Some? && err.value.Unprepared? ==> sent < |msgs| && prepares(msgs[sent]) == Some(err.value.reason)
      ensures msgs == [] ==> calls == old(calls)
    {
      if msgs == [] {
        return 0, None;
      }
      if !confirms || mandatory {
        sent, err := SendSerial(msgs);
        return;
      }
      var n, prepErr := Prepare(msgs);
      if n == 0 {
        return 0, prepErr;
      }
      sent, err := PublishPipelined(n);
      if err.Some? {
        return;
      }
      return sent, prepErr;
    }

    predicate EveryOneReady(msgs: seq<Outgoing>) {
      forall m :: m in msgs ==> prepares(m).None?
    }
  }
}
