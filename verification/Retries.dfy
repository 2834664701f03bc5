/** internal/consumerretry/logs.go: sending a batch until the pipeline takes it,
    re-sending only what it did not take. */
module Retries {
  import opened Records

  /** What the pipeline answers one attempt with. Partial names what it did not take. */
  datatype Reply = Accept | Permanent | Retryable | Partial(rest: seq<Record>)

  /** One attempt: the answer, whether the backoff then says stop, and whether
      the context ends during the wait that follows. */
  datatype Round = Round(reply: Reply, expired: bool, cancelled: bool)

  datatype Answer = Nil | PermanentError | TransientError

  /** How a send ended: the error, what the pipeline took, what is still held. */
  datatype Verdict = Verdict(answer: Answer, accepted: multiset<Record>, held: seq<Record>)

  datatype Holding = Holding(held: seq<Record>, accepted: multiset<Record>) {
    function After(reply: Reply): Holding {
      if reply.Partial? then Holding(reply.rest, accepted + (multiset(held) - multiset(reply.rest)))
      else this
    }

    function Ended(answer: Answer): Verdict {
      if answer.Nil? then Verdict(Nil, accepted + multiset(held), [])
      else Verdict(answer, accepted, held)
    }
  }

  predicate Final(reply: Reply) {
    reply.Accept? || reply.Permanent?
  }

  function FinalAnswer(reply: Reply): Answer {
    if reply.Accept? then Nil else if reply.Permanent? then PermanentError else TransientError
  }

  /** What is held, and what has been taken, when the attempt after these rounds is made. */
  function AfterRounds(batch: seq<Record>, rounds: seq<Round>): Holding {
    if rounds == [] then Holding(batch, multiset{})
    else AfterRounds(batch, rounds[..|rounds| - 1]).After(rounds[|rounds| - 1].reply)
  }

  /** The whole retry loop. Rounds that run out are a context that ended. */
  function Deliver(h: Holding, rounds: seq<Round>): Verdict
    decreases |rounds|
  {
    if rounds == [] then h.Ended(TransientError)
    else
      var r := rounds[0];
      if Final(r.reply) then h.Ended(FinalAnswer(r.reply))
      else if r.expired || r.cancelled then h.After(r.reply).Ended(TransientError)
      else Deliver(h.After(r.reply), rounds[1..])
  }

  function Consume(enabled: bool, batch: seq<Record>, rounds: seq<Round>): Verdict {
    var h := Holding(batch, multiset{});
    if enabled then Deliver(h, rounds)
    else if rounds == [] then h.Ended(TransientError)
    else h.After(rounds[0].reply).Ended(FinalAnswer(rounds[0].reply))
  }

  /** A pipeline that only ever reports back records it was actually sent. */
  ghost predicate Honest(batch: seq<Record>, rounds: seq<Round>) {
    forall i :: 0 <= i < |rounds| && rounds[i].reply.Partial? ==>
      multiset(rounds[i].reply.rest) <= multiset(AfterRounds(batch, rounds[..i]).held)
  }

  /** One more round: what is held after it, and the loop from there. */
  lemma RoundUnfolds(batch: seq<Record>, rounds: seq<Round>, n: nat)
    requires n < |rounds|
    ensures AfterRounds(batch, rounds[..n + 1]) == AfterRounds(batch, rounds[..n]).After(rounds[n].reply)
    ensures var h := AfterRounds(batch, rounds[..n]);
            && (Final(rounds[n].reply) ==> Deliver(h, rounds[n..]) == h.Ended(FinalAnswer(rounds[n].reply)))
            && (!Final(rounds[n].reply) ==>
                  Deliver(h, rounds[n..])
                  == if rounds[n].expired || rounds[n].cancelled then h.After(rounds[n].reply).Ended(TransientError)
                     else Deliver(h.After(rounds[n].reply), rounds[n + 1..]))
  {
    assert rounds[n..][1..] == rounds[n + 1..];
    assert rounds[..n + 1][..n] == rounds[..n];
  }

  /** Every attempt sends what was still held when it was made. */
  ghost predicate Attempts(batch: seq<Record>, rounds: seq<Round>, sent: seq<seq<Record>>) {
    && |sent| <= |rounds|
    && forall n :: 0 <= n < |sent| ==> sent[n] == AfterRounds(batch, rounds[..n]).held
  }

  lemma AttemptsGrow(batch: seq<Record>, rounds: seq<Round>, sent: seq<seq<Record>>)
    requires Attempts(batch, rounds, sent) && |sent| < |rounds|
    ensures Attempts(batch, rounds, sent + [AfterRounds(batch, rounds[..|sent|]).held])
  {
  }

  /** The first attempt sends the batch, and each later one what the answer before it
      named as not taken, or the same again if it named nothing. */
  ghost predicate Resends(batch: seq<Record>, rounds: seq<Round>, sent: seq<seq<Record>>) {
    && |sent| <= |rounds|
    && (sent != [] ==> sent[0] == batch)
    && forall n :: 1 <= n < |sent| ==>
         sent[n] == if rounds[n - 1].reply.Partial? then rounds[n - 1].reply.rest else sent[n - 1]
  }

  /** What is left after these attempts. */
  ghost predicate LeavesOver(batch: seq<Record>, rounds: seq<Round>, sent: seq<seq<Record>>, left: seq<Record>)
    requires |sent| <= |rounds|
  {
    if sent == [] then left == batch
    else
      var last := |sent| - 1;
      left == if rounds[last].reply.Partial? then rounds[last].reply.rest else sent[last]
  }

  /** Attempts go on until one is final, the backoff says stop, the context ends or,
      with retries disabled, the first has been made. */
  ghost predicate StopsWhen(enabled: bool, rounds: seq<Round>, n: nat)
    requires n <= |rounds|
  {
    && (forall i :: 0 <= i < n - 1 ==> enabled && !Final(rounds[i].reply) && !rounds[i].expired && !rounds[i].cancelled)
    && (n < |rounds| ==>
          n > 0 && (!enabled || Final(rounds[n - 1].reply) || rounds[n - 1].expired || rounds[n - 1].cancelled))
  }

  /** What the pipeline took over these attempts: all that was sent when it accepted,
      what it did not name as left over when it took a part. */
  function Taken(sent: seq<seq<Record>>, rounds: seq<Round>): multiset<Record>
    requires |sent| <= |rounds|
  {
    if sent == [] then multiset{}
    else
      var last := |sent| - 1;
      Taken(sent[..last], rounds)
      + match rounds[last].reply
        case Accept => multiset(sent[last])
        case Partial(rest) => multiset(sent[last]) - multiset(rest)
        case _ => multiset{}
  }

  /** The last attempt's own answer decides the error. */
  ghost predicate Answers(answer: Answer, rounds: seq<Round>, n: nat)
    requires n <= |rounds|
  {
    && (answer.Nil? <==> n > 0 && rounds[n - 1].reply.Accept?)
    && (answer.PermanentError? <==> n > 0 && rounds[n - 1].reply.Permanent?)
  }

  /** How a send ends, said through what each attempt sent and was answered. */
  ghost predicate EndsAs(enabled: bool, batch: seq<Record>, rounds: seq<Round>, sent: seq<seq<Record>>, verdict: Verdict) {
    && Resends(batch, rounds, sent) && StopsWhen(enabled, rounds, |sent|)
    && Answers(verdict.answer, rounds, |sent|)
    && verdict.accepted == Taken(sent, rounds)
    && (if verdict.answer.Nil? then verdict.held == [] else LeavesOver(batch, rounds, sent, verdict.held))
  }

  /** The attempts so far, none of which has ended the loop. */
  ghost predicate GoesOn(batch: seq<Record>, rounds: seq<Round>, sent: seq<seq<Record>>, h: Holding) {
    && Resends(batch, rounds, sent) && LeavesOver(batch, rounds, sent, h.held) && h.accepted == Taken(sent, rounds)
    && forall i :: 0 <= i < |sent| ==> !Final(rounds[i].reply) && !rounds[i].expired && !rounds[i].cancelled
  }

  lemma ResendsMore(batch: seq<Record>, rounds: seq<Round>, sent: seq<seq<Record>>, held: seq<Record>)
    requires Resends(batch, rounds, sent) && |sent| < |rounds| && LeavesOver(batch, rounds, sent, held)
    ensures Resends(batch, rounds, sent + [held])
  {
    var now := sent + [held];
    assert forall n :: 0 <= n < |sent| ==> now[n] == sent[n];
  }

  lemma TakenMore(rounds: seq<Round>, sent: seq<seq<Record>>, h: Holding)
    requires |sent| < |rounds| && h.accepted == Taken(sent, rounds)
    ensures var reply := rounds[|sent|].reply;
            (if reply.Accept? then h.accepted + multiset(h.held) else h.After(reply).accepted) == Taken(sent + [h.held], rounds)
  {
    assert (sent + [h.held])[..|sent|] == sent;
  }

  lemma EndsNow(enabled: bool, batch: seq<Record>, rounds: seq<Round>, sent: seq<seq<Record>>, h: Holding)
    requires GoesOn(batch, rounds, sent, h) && |sent| < |rounds| && (enabled || sent == [])
    ensures var round := rounds[|sent|];
            && (!enabled || Final(round.reply) || round.expired || round.cancelled ==>
                  EndsAs(enabled, batch, rounds, sent + [h.held], h.After(round.reply).Ended(FinalAnswer(round.reply))))
            && (enabled && !Final(round.reply) && !round.expired && !round.cancelled ==>
                  GoesOn(batch, rounds, sent + [h.held], h.After(round.reply)))
  {
    ResendsMore(batch, rounds, sent, h.held);
    TakenMore(rounds, sent, h);
    assert forall n :: 0 <= n < |sent| ==> (sent + [h.held])[n] == sent[n];
  }

  /** What ConsumeLogs promises: the verdict, and what each attempt sent, both as the
      functions above have it and said through the attempts alone. */
  ghost predicate Sends(enabled: bool, batch: seq<Record>, rounds: seq<Round>, verdict: Verdict, sent: seq<seq<Record>>) {
    && verdict == Consume(enabled, batch, rounds)
    && Attempts(batch, rounds, sent)
    && EndsAs(enabled, batch, rounds, sent, verdict)
  }

  ghost predicate UnderwayAs(batch: seq<Record>, rounds: seq<Round>, sent: seq<seq<Record>>, n: nat, h: Holding)
    requires n <= |rounds|
  {
    && |sent| == n && h == AfterRounds(batch, rounds[..n])
    && Consume(true, batch, rounds) == Deliver(h, rounds[n..])
    && Attempts(batch, rounds, sent) && GoesOn(batch, rounds, sent, h)
  }

  /** One attempt of the loop: it ends the send, or the loop goes on from there. */
  lemma AttemptMade(batch: seq<Record>, rounds: seq<Round>, sent: seq<seq<Record>>, n: nat, h: Holding)
    requires n < |rounds| && UnderwayAs(batch, rounds, sent, n, h)
    ensures var round, now := rounds[n], sent + [h.held];
            if Final(round.reply) then Sends(true, batch, rounds, h.Ended(FinalAnswer(round.reply)), now)
            else if round.expired || round.cancelled then Sends(true, batch, rounds, h.After(round.reply).Ended(TransientError), now)
            else UnderwayAs(batch, rounds, now, n + 1, h.After(round.reply))
  {
    AttemptsGrow(batch, rounds, sent);
    EndsNow(true, batch, rounds, sent, h);
    RoundUnfolds(batch, rounds, n);
  }

  lemma SendBegins(batch: seq<Record>, rounds: seq<Round>)
    ensures UnderwayAs(batch, rounds, [], 0, Holding(batch, multiset{}))
  {
    assert rounds[0..] == rounds && rounds[..0] == [];
  }

  lemma SendRunsOut(batch: seq<Record>, rounds: seq<Round>, sent: seq<seq<Record>>, h: Holding)
    requires UnderwayAs(batch, rounds, sent, |rounds|, h)
    ensures Sends(true, batch, rounds, h.Ended(TransientError), sent)
  {
    assert rounds[|rounds|..] == [];
  }

  lemma SendOnce(batch: seq<Record>, rounds: seq<Round>)
    ensures rounds == [] ==> Sends(false, batch, rounds, Verdict(TransientError, multiset{}, batch), [])
    ensures rounds != [] ==>
              var h := Holding(batch, multiset{}).After(rounds[0].reply);
              Sends(false, batch, rounds, h.Ended(FinalAnswer(rounds[0].reply)), [batch])
  {
    if rounds != [] {
      AttemptsGrow(batch, rounds, []);
      EndsNow(false, batch, rounds, [], Holding(batch, multiset{}));
      assert rounds[..0] == [] && [] + [batch] == [batch];
    }
  }

  /** sent records what each attempt handed to the pipeline. */
  method ConsumeLogs(enabled: bool, batch: seq<Record>, rounds: seq<Round>)
    returns (verdict: Verdict, sent: seq<seq<Record>>)
    ensures Sends(enabled, batch, rounds, verdict, sent)
    ensures !enabled ==> |sent| <= 1
  {
    sent := [];
    if !enabled {
      SendOnce(batch, rounds);
      if rounds == [] {
        return Verdict(TransientError, multiset{}, batch), [];
      }
      sent := [batch];
      verdict := Holding(batch, multiset{}).After(rounds[0].reply).Ended(FinalAnswer(rounds[0].reply));
      return;
    }
    var logs := batch;
    var h := Holding(batch, multiset{});
    var retryNum := 0;
    SendBegins(batch, rounds);
    while retryNum < |rounds|
      invariant 0 <= retryNum <= |rounds|
      invariant h.held == logs && UnderwayAs(batch, rounds, sent, retryNum, h)
    {
      var round := rounds[retryNum];
      AttemptMade(batch, rounds, sent, retryNum, h);
      sent := sent + [logs];
      if round.reply.Accept? {
        return h.Ended(Nil), sent;
      }
      if round.reply.Permanent? {
        return h.Ended(PermanentError), sent;
      }
      if round.reply.Partial? {
        logs := round.reply.rest;
      }
      h := h.After(round.reply);
      if round.expired {
        return h.Ended(TransientError), sent;
      }
      retryNum := retryNum + 1;
      if round.cancelled {
        return h.Ended(TransientError), sent;
      }
    }
    SendRunsOut(batch, rounds, sent, h);
    verdict := h.Ended(TransientError);
  }

  /** Nothing is lost or doubled between attempts: whenever an attempt is made,
      what the pipeline has taken and what is re-sent make up the batch. */
  lemma {:induction false} ConservedAtEveryAttempt(batch: seq<Record>, rounds: seq<Round>, n: nat)
    requires Honest(batch, rounds) && n <= |rounds|
    ensures var h := AfterRounds(batch, rounds[..n]);
            h.accepted + multiset(h.held) == multiset(batch)
    decreases n
  {
    if n > 0 {
      ConservedAtEveryAttempt(batch, rounds, n - 1);
      assert rounds[..n][..n - 1] == rounds[..n - 1];
    }
  }

  /** held is what was being sent when some attempt, the n-th or later, was
      rejected for good. */
  ghost predicate PermanentlyDropped(batch: seq<Record>, rounds: seq<Round>, n: nat, held: seq<Record>) {
    exists m :: n <= m < |rounds| && rounds[m].reply.Permanent? && held == AfterRounds(batch, rounds[..m]).held
  }

  /** How a send ends: nil means each record was taken exactly once; a permanent
      error drops exactly what is held; any other error leaves it to be re-read. */
  lemma SendConserves(enabled: bool, batch: seq<Record>, rounds: seq<Round>)
    requires Honest(batch, rounds)
    ensures var v := Consume(enabled, batch, rounds);
            && v.accepted + multiset(v.held) == multiset(batch)
            && (v.answer.Nil? ==> v.accepted == multiset(batch) && v.held == [])
            && (v.answer.PermanentError? ==> PermanentlyDropped(batch, rounds, 0, v.held))
  {
    assert rounds[..0] == [];
    if enabled {
      DeliverConserves(batch, rounds, 0);
      assert rounds[0..] == rounds;
    } else if rounds != [] {
      ConservedAtEveryAttempt(batch, rounds, 1);
      assert rounds[..1][..0] == [] && rounds[..1][0] == rounds[0];
      assert AfterRounds(batch, rounds[..1]) == AfterRounds(batch, []).After(rounds[0].reply);
    }
  }

  lemma {:induction false} DeliverConserves(batch: seq<Record>, rounds: seq<Round>, n: nat)
    requires Honest(batch, rounds) && n <= |rounds|
    ensures var v := Deliver(AfterRounds(batch, rounds[..n]), rounds[n..]);
            && v.accepted + multiset(v.held) == multiset(batch)
            && (v.answer.Nil? ==> v.held == [])
            && (v.answer.PermanentError? ==> PermanentlyDropped(batch, rounds, n, v.held))
    decreases |rounds| - n
  {
    ConservedAtEveryAttempt(batch, rounds, n);
    if n < |rounds| {
      ConservedAtEveryAttempt(batch, rounds, n + 1);
      assert rounds[..n + 1][..n] == rounds[..n];
      assert rounds[n..][1..] == rounds[n + 1..];
      DeliverConserves(batch, rounds, n + 1);
    }
  }

  /** The attempts end with the batch dealt with, taken or rejected for good: some
      attempt is final, and nothing stopped the loop before it. */
  ghost predicate DealsWith(enabled: bool, rounds: seq<Round>) {
    exists i :: 0 <= i < |rounds| && Final(rounds[i].reply) && EarlierGoOn(enabled, rounds, i)
  }

  ghost predicate EarlierGoOn(enabled: bool, rounds: seq<Round>, i: nat)
    requires i < |rounds|
  {
    (enabled || i == 0) && forall j :: 0 <= j < i ==> !rounds[j].expired && !rounds[j].cancelled
  }

  /** A batch comes back refused exactly when its attempts did not deal with it;
      what the batch holds makes no difference. */
  lemma RefusedWhen(enabled: bool, batch: seq<Record>, rounds: seq<Round>)
    ensures Consume(enabled, batch, rounds).answer.TransientError? <==> !DealsWith(enabled, rounds)
  {
    if enabled {
      DeliverRefusedWhen(Holding(batch, multiset{}), rounds);
    } else if rounds != [] {
      assert Final(rounds[0].reply) ==> EarlierGoOn(false, rounds, 0);
    }
  }

  lemma {:induction false} DeliverRefusedWhen(h: Holding, rounds: seq<Round>)
    ensures Deliver(h, rounds).answer.TransientError? <==> !DealsWith(true, rounds)
    decreases |rounds|
  {
    if rounds != [] {
      var r := rounds[0];
      if Final(r.reply) {
        assert EarlierGoOn(true, rounds, 0);
      } else if !r.expired && !r.cancelled {
        DeliverRefusedWhen(h.After(r.reply), rounds[1..]);
        DealsWithLater(rounds);
      }
    }
  }

  lemma DealsWithLater(rounds: seq<Round>)
    requires rounds != [] && !Final(rounds[0].reply) && !rounds[0].expired && !rounds[0].cancelled
    ensures DealsWith(true, rounds) <==> DealsWith(true, rounds[1..])
  {
    var rest := rounds[1..];
    if DealsWith(true, rounds) {
      var i :| 0 <= i < |rounds| && Final(rounds[i].reply) && EarlierGoOn(true, rounds, i);
      assert rest[i - 1] == rounds[i] && forall j :: 0 <= j < i - 1 ==> rest[j] == rounds[j + 1];
      assert EarlierGoOn(true, rest, i - 1);
    }
    if DealsWith(true, rest) {
      var i :| 0 <= i < |rest| && Final(rest[i].reply) && EarlierGoOn(true, rest, i);
      forall j | 0 <= j < i + 1 ensures !rounds[j].expired && !rounds[j].cancelled {
        assert j > 0 ==> rounds[j] == rest[j - 1];
      }
      assert EarlierGoOn(true, rounds, i + 1);
    }
  }

  /** A pipeline that takes a batch whole or not at all. */
  ghost predicate Whole(rounds: seq<Round>) {
    forall i :: 0 <= i < |rounds| ==> !rounds[i].reply.Partial?
  }

  lemma {:induction false} WholeDeliver(h: Holding, rounds: seq<Round>)
    requires Whole(rounds)
    ensures var v := Deliver(h, rounds);
            (v.answer.Nil? ==> v.accepted == h.accepted + multiset(h.held)) && (!v.answer.Nil? ==> v.accepted == h.accepted)
    decreases |rounds|
  {
    if rounds != [] {
      assert rounds[1..] == [] || !rounds[1..][0].reply.Partial?;
      WholeDeliver(h.After(rounds[0].reply), rounds[1..]);
    }
  }

  lemma WholeTakesAllOrNothing(enabled: bool, batch: seq<Record>, rounds: seq<Round>)
    requires Whole(rounds)
    ensures var v := Consume(enabled, batch, rounds);
            v.accepted == if v.answer.Nil? then multiset(batch) else multiset{}
  {
    WholeDeliver(Holding(batch, multiset{}), rounds);
  }
}
