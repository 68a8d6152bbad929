/** A backend instance of api/main.go: its process-wide state (the store
    `data`, the retry queue `errChannel`, the configured processor and peer
    addresses) as the fields of one object, and the operations that read and
    update them. Calls are sequential; the locks are not modelled. */
module Instance {
  import opened Wrappers
  import opened Payments
  import opened Store
  import opened Pipeline
  import opened Federation

  /** Go's `*Payment`: the record that `SendPayment` and the workers update in
      place. */
  class PaymentRef {
    var id: string
    var amount: int
    var requestedAt: string
    var isDefault: bool
    var err: string
    var attempts: int

    /** The struct the pointer refers to, `*p`. */
    function Value(): Payment
      reads this
    {
      Payment(id, amount, requestedAt, isDefault, err, attempts)
    }

    /** `&Payment{}` filled in by `json.Unmarshal`. */
    constructor Decode(id: string, amount: int, requestedAt: string)
      ensures Value() == Decoded(id, amount, requestedAt)
    {
      this.id, this.amount, this.requestedAt := id, amount, requestedAt;
      this.isDefault, this.err, this.attempts := false, "", 0;
    }
  }

  /** A message read from the WebSocket: it either decodes as a submission
      (`correlationId`, `amount`, `requestedAt`) or it does not. */
  datatype Message = Garbled | Submission(id: string, amount: int, requestedAt: string)

  /** The error `Save` returns when `requestedAt` does not parse. */
  datatype SaveError = BadTimestamp

  /** What `handleGetSummary` answers. */
  datatype SummaryResponse = BadRequest | SummaryOk(summary: PaymentSummary)

  /** The inner loop of every summary: fold one bucket into the accumulators. */
  method AddBucket(acc: PaymentSummary, payments: seq<Payment>) returns (r: PaymentSummary)
    ensures r == Add(acc, BucketSummary(payments))
  {
    r := acc;
    for i := 0 to |payments|
      invariant r == Add(acc, BucketSummary(payments[..i]))
    {
      var payment := payments[i];
      if payment.isDefault {
        r := r.(default := Summary(r.default.totalRequests + 1, r.default.totalAmount + payment.amount));
      } else {
        r := r.(fallback := Summary(r.fallback.totalRequests + 1, r.fallback.totalAmount + payment.amount));
      }
      assert payments[..i + 1][..i] == payments[..i];
      RecordAdd(acc, BucketSummary(payments[..i]), payment);
    }
    assert payments[..|payments|] == payments;
  }

  /** `GetInstanceSummary`: build the peer URL and classify the answer. */
  method GetInstanceSummary(instance: string, from: string, to: string, peers: string -> PeerReply)
    returns (r: Result<PaymentSummary, PeerError>, ghost url: Option<string>)
    ensures r == Fetch(instance, from, to, peers)
    ensures url == if instance == "" then None else Some(PeerUrl(instance, from, to))
  {
    if instance == "" {
      return Failure(EmptyInstance), None;
    }
    var u := instance + "/payments-summary?internal=true";
    if from != "" {
      u := u + "&from=" + from;
    }
    assert u == instance + PeerPath + (if from != "" then "&from=" + from else "");
    if to != "" {
      u := u + "&to=" + to;
    }
    assert u == PeerUrl(instance, from, to);
    url := Some(u);
    match peers(u)
    case Unreachable =>
      r := Failure(PeerRequestFailed);
    case Answer(status, body) =>
      if status != 200 {
        r := Failure(PeerBadStatus(status));
      } else if body.None? {
        r := Failure(Undecodable);
      } else {
        r := Success(body.value);
      }
  }

  class Instance {
    /** The store: timestamp to the payments saved at that instant. */
    var data: Data
    /** `errChannel`: payments waiting for another pass through `errWorker`. */
    var errQueue: seq<PaymentRef>
    /** `PRINCIPAL_SERVICE` and `FALLBACK_SERVICE`. */
    const urls: Processors
    /** `API_INSTANCES`, split at commas. */
    const instances: seq<string>
    /** `time.Parse(time.RFC3339, ·)`, in milliseconds. */
    const parseStamp: string -> Option<int>
    /** `time.Parse("2006-01-02T15:04:05.000Z", ·)`, in milliseconds. */
    const parseQuery: string -> Option<int>

    constructor (urls: Processors, instances: seq<string>,
                 parseStamp: string -> Option<int>, parseQuery: string -> Option<int>)
      ensures data == map[] && errQueue == []
      ensures this.urls == urls && this.instances == instances
      ensures this.parseStamp == parseStamp && this.parseQuery == parseQuery
    {
      this.urls, this.instances := urls, instances;
      this.parseStamp, this.parseQuery := parseStamp, parseQuery;
      data, errQueue := map[], [];
    }

    /** `Save`: append `*payment` to the bucket of its timestamp, creating the
        bucket when absent; a timestamp that does not parse is an error and
        leaves the store as it was. */
    method Save(payment: PaymentRef) returns (err: Outcome<SaveError>)
      modifies this`data
      ensures parseStamp(payment.requestedAt).None? ==> err == Fail(BadTimestamp) && data == old(data)
      ensures parseStamp(payment.requestedAt).Some? ==>
        err == Pass && data == Append(old(data), parseStamp(payment.requestedAt).value, payment.Value())
    {
      var parsed := parseStamp(payment.requestedAt);
      if parsed.None? {
        return Fail(BadTimestamp);
      }
      var t := parsed.value;
      if t !in data {
        data := data[t := [payment.Value()]];
        return Pass;
      }
      data := data[t := data[t] + [payment.Value()]];
      return Pass;
    }

    /** `GetSummary`: dispatch on which bounds are present. */
    method GetSummary(from: Option<int>, to: Option<int>) returns (r: PaymentSummary)
      ensures r == Summarize(data, from, to)
    {
      if from.None? && to.None? {
        r := GetAllPaymentsSummary();
      } else if from.Some? && to.Some? {
        r := GetFromToPaymentsSummary(from.value, to.value);
      } else if from.Some? {
        r := GetFromPaymentsSummary(from.value);
      } else {
        r := GetToPaymentsSummary(to.value);
      }
    }

    /** `GetFromPaymentsSummary`: the buckets strictly after `from`. */
    method GetFromPaymentsSummary(from: int) returns (r: PaymentSummary)
      ensures r == Summarize(data, Some(from), None)
    {
      ghost var w := Window(data, Some(from), None);
      var acc := Empty;
      var todo := data.Keys;
      while todo != {}
        invariant todo <= data.Keys
        invariant acc == SummaryOver(data, w - todo)
        decreases |todo|
      {
        NonEmptyHasElement(todo);
        var t :| t in todo;
        if t > from {
          SummaryOverInsert(data, w - todo, t);
          acc := AddBucket(acc, data[t]);
          assert w - todo + {t} == w - (todo - {t});
        } else {
          assert w - todo == w - (todo - {t});
        }
        todo := todo - {t};
      }
      assert w - {} == w;
      r := acc;
    }

    /** `GetToPaymentsSummary`: the buckets strictly before `to`. */
    method GetToPaymentsSummary(to: int) returns (r: PaymentSummary)
      ensures r == Summarize(data, None, Some(to))
    {
      ghost var w := Window(data, None, Some(to));
      var acc := Empty;
      var todo := data.Keys;
      while todo != {}
        invariant todo <= data.Keys
        invariant acc == SummaryOver(data, w - todo)
        decreases |todo|
      {
        NonEmptyHasElement(todo);
        var t :| t in todo;
        if t < to {
          SummaryOverInsert(data, w - todo, t);
          acc := AddBucket(acc, data[t]);
          assert w - todo + {t} == w - (todo - {t});
        } else {
          assert w - todo == w - (todo - {t});
        }
        todo := todo - {t};
      }
      assert w - {} == w;
      r := acc;
    }

    /** `GetFromToPaymentsSummary`: the buckets strictly between the bounds. */
    method GetFromToPaymentsSummary(from: int, to: int) returns (r: PaymentSummary)
      ensures r == Summarize(data, Some(from), Some(to))
    {
      ghost var w := Window(data, Some(from), Some(to));
      var acc := Empty;
      var todo := data.Keys;
      while todo != {}
        invariant todo <= data.Keys
        invariant acc == SummaryOver(data, w - todo)
        decreases |todo|
      {
        NonEmptyHasElement(todo);
        var t :| t in todo;
        if t > from && t < to {
          SummaryOverInsert(data, w - todo, t);
          acc := AddBucket(acc, data[t]);
          assert w - todo + {t} == w - (todo - {t});
        } else {
          assert w - todo == w - (todo - {t});
        }
        todo := todo - {t};
      }
      assert w - {} == w;
      r := acc;
    }

    /** `GetAllPaymentsSummary`: every bucket. */
    method GetAllPaymentsSummary() returns (r: PaymentSummary)
      ensures r == Summarize(data, None, None)
    {
      var acc := Empty;
      var todo := data.Keys;
      while todo != {}
        invariant todo <= data.Keys
        invariant acc == SummaryOver(data, data.Keys - todo)
        decreases |todo|
      {
        NonEmptyHasElement(todo);
        var t :| t in todo;
        SummaryOverInsert(data, data.Keys - todo, t);
        acc := AddBucket(acc, data[t]);
        assert data.Keys - todo + {t} == data.Keys - (todo - {t});
        todo := todo - {t};
      }
      assert data.Keys - {} == data.Keys;
      r := acc;
    }

    /** `SendPayment`: count the attempt, try the principal, and from the
        fourth attempt on try the fallback when the principal fails. The flag
        says whether the principal took the payment. */
    method SendPayment(payment: PaymentRef?, pr: Reply, fr: Reply)
      returns (err: Outcome<PaymentError>, isDefault: bool, ghost calls: seq<Call>)
      modifies payment
      ensures payment == null ==> err == Fail(NilPayment) && !isDefault && calls == []
      ensures payment != null ==>
        && payment.Value() == old(payment.Value()).(attempts := old(payment.attempts) + 1)
        && Delivery(err, isDefault, calls) == Deliver(payment.attempts, urls, pr, fr)
    {
      if payment == null {
        return Fail(NilPayment), false, [];
      }
      payment.attempts := payment.attempts + 1;
      var e := Send(urls.principal, pr);
      if e.Fail? {
        if payment.attempts > 3 {
          var e' := Send(urls.fallback, fr);
          calls := [Call(Principal, payment.attempts), Call(Fallback, payment.attempts)];
          if e'.Fail? {
            return Fail(BothFailed(e'.error)), false, calls;
          }
          return Pass, false, calls;
        } else {
          return Fail(PrincipalFailed(e.error)), false, [Call(Principal, payment.attempts)];
        }
      }
      return Pass, true, [Call(Principal, payment.attempts)];
    }

    /** One iteration of `worker`: decode the message, stamp it with `now`,
        deliver it (a fresh payment is never marked `SAVE`), save it, and put it
        on `errChannel` when either step fails. */
    method Worker(msg: Message, now: string, pr: Reply, fr: Reply) returns (ghost calls: seq<Call>)
      modifies this
      ensures msg.Garbled? ==> data == old(data) && errQueue == old(errQueue) && calls == []
      ensures msg.Submission? ==>
        var s := Process(Decoded(msg.id, msg.amount, msg.requestedAt), urls, now, parseStamp(now), pr, fr);
        && calls == s.calls
        && (s.fate.Requeued? ==>
              && data == old(data)
              && |errQueue| == |old(errQueue)| + 1
              && errQueue[..|old(errQueue)|] == old(errQueue)
              && fresh(errQueue[|old(errQueue)|])
              && errQueue[|old(errQueue)|].Value() == s.payment)
        && (s.fate.Stored? ==>
              errQueue == old(errQueue) && data == Append(old(data), s.fate.at, s.payment))
    {
      if msg.Garbled? {
        return [];
      }
      var p := new PaymentRef.Decode(msg.id, msg.amount, msg.requestedAt);
      p.requestedAt := now;
      calls := [];
      if p.err != SaveStage {
        var err;
        err, p.isDefault, calls := SendPayment(p, pr, fr);
        if err.Fail? {
          errQueue := errQueue + [p];
          return;
        }
      }
      var saveErr := Save(p);
      if saveErr.Fail? {
        p.err := SaveStage;
        errQueue := errQueue + [p];
      }
    }

    /** One iteration of `errWorker`: take the payment at the head of
        `errChannel` (none: the worker waits), stamp it with `now`, deliver it
        unless it is marked `SAVE`, save it, and put it back on `errChannel`
        when either step fails. */
    method ErrWorker(now: string, pr: Reply, fr: Reply) returns (idle: bool, ghost calls: seq<Call>)
      modifies this, if errQueue == [] then {} else {errQueue[0]}
      ensures idle <==> old(errQueue) == []
      ensures idle ==> data == old(data) && errQueue == old(errQueue) && calls == []
      ensures !idle ==>
        var p := old(errQueue[0]);
        var s := Process(old(p.Value()), urls, now, parseStamp(now), pr, fr);
        && calls == s.calls
        && p.Value() == s.payment
        && (s.fate.Requeued? ==> data == old(data) && errQueue == old(errQueue[1..]) + [p])
        && (s.fate.Stored? ==> errQueue == old(errQueue[1..]) && data == Append(old(data), s.fate.at, s.payment))
    {
      if errQueue == [] {
        return true, [];
      }
      idle := false;
      var p := errQueue[0];
      errQueue := errQueue[1..];
      p.requestedAt := now;
      calls := [];
      if p.err != SaveStage {
        var err;
        err, p.isDefault, calls := SendPayment(p, pr, fr);
        if err.Fail? {
          errQueue := errQueue + [p];
          return;
        }
      }
      var saveErr := Save(p);
      if saveErr.Fail? {
        p.err := SaveStage;
        errQueue := errQueue + [p];
      }
    }

    /** `handleGetSummary`: a non-empty bound that does not parse is a bad
        request; otherwise the local summary of the range, plus, unless the
        request is internal, the summary of every non-empty peer that
        answers. */
    /** The peer loop of `handleGetSummary`: add the summary of every
        configured instance whose fetch succeeds, skipping empty and failing
        ones, to `local`. */
    method Federate(local: PaymentSummary, from: string, to: string, peers: string -> PeerReply)
      returns (summary: PaymentSummary)
      ensures summary == Add(local, PeerSum(instances, from, to, peers))
    {
      summary := local;
      for i := 0 to |instances|
        invariant summary == Add(local, PeerSum(instances[..i], from, to, peers))
      {
        assert instances[..i + 1][..i] == instances[..i];
        var instance := instances[i];
        if instance == "" {
          continue;
        }
        var instanceSummary, _ := GetInstanceSummary(instance, from, to, peers);
        if instanceSummary.Failure? {
          continue;
        }
        var s := instanceSummary.value;
        summary := PaymentSummary(
          Summary(summary.default.totalRequests + s.default.totalRequests,
                  summary.default.totalAmount + s.default.totalAmount),
          Summary(summary.fallback.totalRequests + s.fallback.totalRequests,
                  summary.fallback.totalAmount + s.fallback.totalAmount));
      }
      assert instances[..|instances|] == instances;
    }

    method HandleGetSummary(from: string, to: string, internal: string, peers: string -> PeerReply)
      returns (resp: SummaryResponse)
      ensures (from != "" && parseQuery(from).None?) || (to != "" && parseQuery(to).None?) ==>
        resp == BadRequest
      ensures !((from != "" && parseQuery(from).None?) || (to != "" && parseQuery(to).None?)) ==>
        var fromTime := if from == "" then None else parseQuery(from);
        var toTime := if to == "" then None else parseQuery(to);
        resp == SummaryOk(Merge(Summarize(data, fromTime, toTime), internal, instances, from, to, peers))
    {
      var fromTime: Option<int> := None;
      var toTime: Option<int> := None;
      if from != "" {
        var parsed := parseQuery(from);
        if parsed.None? {
          return BadRequest;
        }
        fromTime := parsed;
      }
      if to != "" {
        var parsed := parseQuery(to);
        if parsed.None? {
          return BadRequest;
        }
        toTime := parsed;
      }
      var summary := GetSummary(fromTime, toTime);
      if internal == "" {
        summary := Federate(summary, from, to, peers);
      }
      return SummaryOk(summary);
    }
  }
}
