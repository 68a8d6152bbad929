/** The delivery and retry logic of api/main.go on payment values: `send`'s
    status classification, `SendPayment`'s escalation from the principal to the
    fallback processor, and one pass of a payment through `worker` or
    `errWorker`. The processors are oracles: each call is given the `Reply`
    the network would produce. */
module Pipeline {
  import opened Wrappers
  import opened Payments

  /** What the network answers to one POST: a transport failure (including a
      request that cannot be built) or an HTTP status. */
  datatype Reply = TransportError | Status(code: int)

  /** The errors `send` returns. */
  datatype SendError = EmptyUrl | RequestFailed | BadStatus(code: int)

  const StatusOK: int := 200
  const StatusUnprocessableEntity: int := 422

  /** `send(url, payment)`: the processor took the payment iff the URL is
      non-empty, the request went through and the status is 200 or 422 (a
      payment the processor calls unprocessable is not resent). */
  function Send(url: string, reply: Reply): (r: Outcome<SendError>)
    ensures r.Pass? <==> url != "" && reply.Status? && (reply.code == StatusOK || reply.code == StatusUnprocessableEntity)
    ensures url == "" ==> r == Fail(EmptyUrl)
    ensures url != "" && reply.Status? && r.Fail? ==> r.error == BadStatus(reply.code)
  {
    if url == "" then Fail(EmptyUrl)
    else
      match reply
      case TransportError => Fail(RequestFailed)
      case Status(code) =>
        if code == StatusUnprocessableEntity then Pass
        else if code != StatusOK then Fail(BadStatus(code))
        else Pass
  }

  datatype Processor = Principal | Fallback

  /** One call of `send`, to which processor and on which attempt. */
  datatype Call = Call(to: Processor, attempt: int)

  /** The errors `SendPayment` returns. */
  datatype PaymentError = NilPayment | PrincipalFailed(cause: SendError) | BothFailed(cause: SendError)

  /** The processor URLs the instance was configured with. */
  datatype Processors = Processors(principal: string, fallback: string)

  /** The two results of `SendPayment` and the calls it made. */
  datatype Delivery = Delivery(err: Outcome<PaymentError>, isDefault: bool, calls: seq<Call>)

  /** `SendPayment` once `Attempts` has been incremented to `attempt`: the
      principal is always tried; the fallback only when the principal failed
      and `attempt` exceeds 3. The flag is true iff the principal took the
      payment. */
  function Deliver(attempt: int, urls: Processors, pr: Reply, fr: Reply): (d: Delivery)
    ensures 1 <= |d.calls| <= 2 && d.calls[0] == Call(Principal, attempt)
    ensures |d.calls| == 2 <==> Send(urls.principal, pr).Fail? && attempt > 3
    ensures |d.calls| == 2 ==> d.calls[1] == Call(Fallback, attempt)
    ensures d.isDefault <==> Send(urls.principal, pr).Pass?
    ensures d.err.Pass? <==> Send(urls.principal, pr).Pass? || (attempt > 3 && Send(urls.fallback, fr).Pass?)
    ensures d.err.Fail? && attempt <= 3 ==> d.err.error == PrincipalFailed(Send(urls.principal, pr).error)
    ensures d.err.Fail? && attempt > 3 ==> d.err.error == BothFailed(Send(urls.fallback, fr).error)
  {
    match Send(urls.principal, pr)
    case Pass => Delivery(Pass, true, [Call(Principal, attempt)])
    case Fail(e) =>
      if attempt > 3 then
        match Send(urls.fallback, fr)
        case Pass => Delivery(Pass, false, [Call(Principal, attempt), Call(Fallback, attempt)])
        case Fail(e') => Delivery(Fail(BothFailed(e')), false, [Call(Principal, attempt), Call(Fallback, attempt)])
      else
        Delivery(Fail(PrincipalFailed(e)), false, [Call(Principal, attempt)])
  }

  // ---------------------------------------------------------------------------
  // One pass through a worker

  /** Where a payment goes after one pass: back onto `errChannel`, or into the
      store bucket at `at`. */
  datatype Fate = Requeued | Stored(at: int)

  /** The payment after the pass (the value stored, or the value requeued), its
      fate and the processor calls made. */
  datatype Step = Step(payment: Payment, fate: Fate, calls: seq<Call>)

  /** The save step: `stamp` is what parsing `requestedAt` gives. A failed
      save marks the payment `SAVE` and requeues it. */
  function SaveStep(p: Payment, stamp: Option<int>, calls: seq<Call>): (s: Step)
    ensures s.calls == calls
    ensures s.fate.Stored? <==> stamp.Some?
    ensures stamp.Some? ==> s.fate.at == stamp.value && s.payment == p
    ensures stamp.None? ==> s.payment == p.(err := SaveStage)
  {
    match stamp
    case None => Step(p.(err := SaveStage), Requeued, calls)
    case Some(t) => Step(p, Stored(t), calls)
  }

  /** The body of `worker` after decoding, and of `errWorker`: stamp the
      payment with `now`; unless it is marked `SAVE`, deliver it and requeue it
      on failure; then save it, marking it `SAVE` and requeueing it when the
      save fails. */
  function Process(p: Payment, urls: Processors, now: string, stamp: Option<int>, pr: Reply, fr: Reply): (s: Step)
    ensures s.payment.id == p.id && s.payment.amount == p.amount && s.payment.requestedAt == now
    ensures p.err == SaveStage ==>
      && s.calls == []
      && s.payment.attempts == p.attempts
      && s.payment.isDefault == p.isDefault
      && s.payment.err == SaveStage
    ensures p.err != SaveStage ==>
      var d := Deliver(p.attempts + 1, urls, pr, fr);
      && s.payment.attempts == p.attempts + 1
      && s.payment.isDefault == d.isDefault
      && s.calls == d.calls
      && (d.err.Fail? ==> s.fate == Requeued && s.payment.err == p.err)
    ensures s.fate.Stored? <==>
      (p.err == SaveStage || Deliver(p.attempts + 1, urls, pr, fr).err.Pass?) && stamp.Some?
    ensures s.fate.Stored? ==> s.fate.at == stamp.value && s.payment.err == p.err
    ensures (p.err == SaveStage || Deliver(p.attempts + 1, urls, pr, fr).err.Pass?) && stamp.None? ==>
      s.fate == Requeued && s.payment.err == SaveStage
  {
    var p1 := p.(requestedAt := now);
    if p1.err != SaveStage then
      var d := Deliver(p1.attempts + 1, urls, pr, fr);
      var p2 := p1.(attempts := p1.attempts + 1, isDefault := d.isDefault);
      if d.err.Fail? then Step(p2, Requeued, d.calls)
      else SaveStep(p2, stamp, d.calls)
    else
      SaveStep(p1, stamp, [])
  }

  // ---------------------------------------------------------------------------
  // Repeated passes: the retry loop through `errChannel`

  /** The outside world during one pass: the clock, what parsing the clock's
      text gives, and the two processors' replies. */
  datatype StepEnv = StepEnv(now: string, stamp: Option<int>, principal: Reply, fallback: Reply)

  datatype RunResult = RunResult(payment: Payment, stored: Option<int>, calls: seq<Call>)

  /** Passes of one payment through the workers, one per element of `envs`,
      until it is stored. */
  function Run(p: Payment, urls: Processors, envs: seq<StepEnv>): (r: RunResult)
    ensures r.payment.id == p.id && r.payment.amount == p.amount
    decreases |envs|
  {
    if envs == [] then RunResult(p, None, [])
    else
      var e := envs[0];
      var s := Process(p, urls, e.now, e.stamp, e.principal, e.fallback);
      match s.fate
      case Stored(t) => RunResult(s.payment, Some(t), s.calls)
      case Requeued =>
        var r := Run(s.payment, urls, envs[1..]);
        r.(calls := s.calls + r.calls)
  }

  /** A stored payment is stored at the parsed timestamp of one of the passes,
      and one still in the queue carries the clock text of the last pass. */
  lemma {:induction false} RunStamps(p: Payment, urls: Processors, envs: seq<StepEnv>)
    ensures var r := Run(p, urls, envs);
      && (r.stored.Some? ==> exists i :: 0 <= i < |envs| && envs[i].stamp == r.stored)
      && (r.stored.None? && envs != [] ==> r.payment.requestedAt == envs[|envs| - 1].now)
    decreases |envs|
  {
    if envs != [] {
      var e := envs[0];
      var s := Process(p, urls, e.now, e.stamp, e.principal, e.fallback);
      if s.fate.Requeued? {
        var rest := envs[1..];
        RunStamps(s.payment, urls, rest);
        var r := Run(s.payment, urls, rest);
        if r.stored.Some? {
          var i :| 0 <= i < |rest| && rest[i].stamp == r.stored;
          assert envs[i + 1] == rest[i];
        }
        if rest != [] {
          assert envs[|envs| - 1] == rest[|rest| - 1];
        }
      } else {
        assert envs[0].stamp == Run(p, urls, envs).stored;
      }
    }
  }

  /** The number of calls made to the principal processor. */
  function PrincipalCalls(calls: seq<Call>): nat
    decreases |calls|
  {
    if calls == [] then 0
    else (if calls[0].to == Principal then 1 else 0) + PrincipalCalls(calls[1..])
  }

  lemma PrincipalCallsAppend(a: seq<Call>, b: seq<Call>)
    ensures PrincipalCalls(a + b) == PrincipalCalls(a) + PrincipalCalls(b)
  {
    if a == [] {
      assert a + b == b;
    } else {
      assert (a + b)[0] == a[0];
      assert (a + b)[1..] == a[1..] + b;
      PrincipalCallsAppend(a[1..], b);
    }
  }

  /** Once a payment is marked `SAVE` it is never delivered again, however
      often it is retried: no processor is called, `attempts` and `isDefault`
      do not change, and the mark is never reset. */
  lemma {:induction false} SaveStageIsFinal(p: Payment, urls: Processors, envs: seq<StepEnv>)
    requires p.err == SaveStage
    ensures var r := Run(p, urls, envs);
      && r.calls == []
      && r.payment.attempts == p.attempts
      && r.payment.isDefault == p.isDefault
      && r.payment.err == SaveStage
    decreases |envs|
  {
    if envs != [] {
      var e := envs[0];
      var s := Process(p, urls, e.now, e.stamp, e.principal, e.fallback);
      if s.fate.Requeued? {
        SaveStageIsFinal(s.payment, urls, envs[1..]);
      }
    }
  }

  /** Every delivery attempt increments `attempts` exactly once and calls the
      principal exactly once, and the fallback is called only on an attempt
      numbered above 3. */
  lemma {:induction false} EscalationOverRetries(p: Payment, urls: Processors, envs: seq<StepEnv>)
    ensures var r := Run(p, urls, envs);
      && r.payment.attempts == p.attempts + PrincipalCalls(r.calls)
      && (forall i :: 0 <= i < |r.calls| ==> r.calls[i].attempt > p.attempts)
      && (forall i :: 0 <= i < |r.calls| && r.calls[i].to == Fallback ==> r.calls[i].attempt > 3)
    decreases |envs|
  {
    if envs != [] {
      var e := envs[0];
      var s := Process(p, urls, e.now, e.stamp, e.principal, e.fallback);
      if s.fate.Requeued? {
        EscalationOverRetries(s.payment, urls, envs[1..]);
        var r := Run(s.payment, urls, envs[1..]);
        PrincipalCallsAppend(s.calls, r.calls);
        if p.err == SaveStage {
          SaveStageIsFinal(s.payment, urls, envs[1..]);
        }
      } else {
        PrincipalCallsAppend(s.calls, []);
      }
      assert PrincipalCalls(s.calls) == (if p.err == SaveStage then 0 else 1) by {
        if p.err != SaveStage {
          var d := Deliver(p.attempts + 1, urls, e.principal, e.fallback);
          assert s.calls == d.calls;
          if |d.calls| == 2 {
            assert d.calls == [d.calls[0]] + [d.calls[1]];
            PrincipalCallsAppend([d.calls[0]], [d.calls[1]]);
          }
        }
      }
    }
  }

  /** A processor environment where the principal always fails and the fallback
      always takes the payment, and the clock text always parses. */
  ghost predicate PrincipalDown(urls: Processors, envs: seq<StepEnv>)
  {
    forall i :: 0 <= i < |envs| ==>
      && Send(urls.principal, envs[i].principal).Fail?
      && Send(urls.fallback, envs[i].fallback).Pass?
      && envs[i].stamp.Some?
  }

  /** With the principal down and the fallback up, a fresh payment fails on
      attempts 1 to 3 and is stored on attempt 4, as taken by the fallback. */
  lemma {:induction false} FallbackTakesOver(p: Payment, urls: Processors, envs: seq<StepEnv>)
    requires p.err == "" && 0 <= p.attempts <= 3
    requires PrincipalDown(urls, envs) && |envs| >= 4 - p.attempts
    ensures var r := Run(p, urls, envs);
      && r.stored == Some(envs[3 - p.attempts].stamp.value)
      && r.payment.attempts == 4
      && !r.payment.isDefault
      && r.calls[|r.calls| - 1] == Call(Fallback, 4)
    decreases 4 - p.attempts
  {
    var e := envs[0];
    var s := Process(p, urls, e.now, e.stamp, e.principal, e.fallback);
    if p.attempts < 3 {
      assert s.fate == Requeued && s.payment.err == "" && s.payment.attempts == p.attempts + 1;
      assert PrincipalDown(urls, envs[1..]) by {
        forall i | 0 <= i < |envs[1..]| ensures envs[1..][i] == envs[i + 1] { }
      }
      FallbackTakesOver(s.payment, urls, envs[1..]);
    } else {
      assert s.fate == Stored(e.stamp.value);
    }
  }

  /** With both processors failing, a payment is never stored, however many
      times it is retried, and every pass counts one more attempt. */
  lemma {:induction false} RetriesAreUnbounded(p: Payment, urls: Processors, envs: seq<StepEnv>)
    requires p.err != SaveStage
    requires forall i :: 0 <= i < |envs| ==>
      Send(urls.principal, envs[i].principal).Fail? && Send(urls.fallback, envs[i].fallback).Fail?
    ensures Run(p, urls, envs).stored == None
    ensures Run(p, urls, envs).payment.attempts == p.attempts + |envs|
    decreases |envs|
  {
    if envs != [] {
      var e := envs[0];
      var s := Process(p, urls, e.now, e.stamp, e.principal, e.fallback);
      assert s.fate == Requeued && s.payment.err == p.err;
      assert forall i :: 0 <= i < |envs[1..]| ==> envs[1..][i] == envs[i + 1];
      RetriesAreUnbounded(s.payment, urls, envs[1..]);
    }
  }
}
