/** The federated summary of api/main.go: the URL an instance uses to ask a
    peer for its local summary, how the peer's answer is classified, and how
    the answers of all peers are merged into the local summary. The network
    is an oracle `peers` that gives the answer to a GET of each URL. */
module Federation {
  import opened Wrappers
  import opened Payments

  /** What a GET of a peer's summary URL produces: a transport failure, or a
      status with a body that either decodes as a summary or does not. */
  datatype PeerReply = Unreachable | Answer(status: int, body: Option<PaymentSummary>)

  /** The errors `GetInstanceSummary` returns. */
  datatype PeerError = EmptyInstance | PeerRequestFailed | PeerBadStatus(code: int) | Undecodable

  /** The path and flag of every peer request: a peer asked this way does not
      federate in turn. */
  const PeerPath: string := "/payments-summary?internal=true"

  /** The URL `GetInstanceSummary` requests: the peer path with the internal
      flag, then `&from=` and `&to=` each only when the bound is non-empty. */
  function PeerUrl(instance: string, from: string, to: string): (u: string)
    ensures |u| >= |instance + PeerPath| && u[..|instance + PeerPath|] == instance + PeerPath
    ensures from == "" && to == "" ==> u == instance + PeerPath
    ensures |u| == |instance + PeerPath| + (if from != "" then 6 + |from| else 0) + (if to != "" then 4 + |to| else 0)
    ensures from != "" ==> u[|instance + PeerPath|..|instance + PeerPath| + 6 + |from|] == "&from=" + from
    ensures to != "" ==> u[|u| - (4 + |to|)..] == "&to=" + to
  {
    instance + PeerPath
      + (if from != "" then "&from=" + from else "")
      + (if to != "" then "&to=" + to else "")
  }

  /** `GetInstanceSummary` on the answer the network gives for its URL: it
      succeeds iff the instance is non-empty, the request goes through with
      status 200 and the body decodes. */
  function Fetch(instance: string, from: string, to: string, peers: string -> PeerReply): (r: Result<PaymentSummary, PeerError>)
    ensures r == Failure(EmptyInstance) <==> instance == ""
    ensures r.Success? <==>
      && instance != ""
      && peers(PeerUrl(instance, from, to)).Answer?
      && peers(PeerUrl(instance, from, to)).status == 200
      && peers(PeerUrl(instance, from, to)).body.Some?
    ensures r.Success? ==> r.value == peers(PeerUrl(instance, from, to)).body.value
  {
    if instance == "" then Failure(EmptyInstance)
    else
      match peers(PeerUrl(instance, from, to))
      case Unreachable => Failure(PeerRequestFailed)
      case Answer(status, body) =>
        if status != 200 then Failure(PeerBadStatus(status))
        else if body.None? then Failure(Undecodable)
        else Success(body.value)
  }

  /** What one configured instance adds to the federated summary: its summary
      when it is non-empty and the fetch succeeded, nothing otherwise. */
  function Contribution(instance: string, from: string, to: string, peers: string -> PeerReply): (c: PaymentSummary)
    ensures instance == "" || Fetch(instance, from, to, peers).Failure? ==> c == Empty
    ensures Fetch(instance, from, to, peers).Success? ==> c == Fetch(instance, from, to, peers).value
  {
    if instance == "" then Empty
    else
      match Fetch(instance, from, to, peers)
      case Success(s) => s
      case Failure(_) => Empty
  }

  /** The sum of the contributions of `instances`, in order. */
  function PeerSum(instances: seq<string>, from: string, to: string, peers: string -> PeerReply): (r: PaymentSummary)
    ensures |instances| == 1 ==> r == Contribution(instances[0], from, to, peers)
    decreases |instances|
  {
    if instances == [] then Empty
    else
      var init := instances[..|instances| - 1];
      var c := Contribution(instances[|instances| - 1], from, to, peers);
      AddEmpty(c);
      Add(PeerSum(init, from, to, peers), c)
  }

  /** The instances whose fetch succeeds. */
  function Reachable(instances: seq<string>, from: string, to: string, peers: string -> PeerReply): (r: seq<string>)
    ensures forall i :: i in r <==> i in instances && Fetch(i, from, to, peers).Success?
    decreases |instances|
  {
    if instances == [] then []
    else
      var init, last := instances[..|instances| - 1], instances[|instances| - 1];
      assert instances == init + [last];
      Reachable(init, from, to, peers)
        + (if Fetch(last, from, to, peers).Success? then [last] else [])
  }

  /** The summary `handleGetSummary` reports for a local summary: exactly the
      local one for an internal request, otherwise the local one plus every
      peer's contribution. */
  function Merge(local: PaymentSummary, internal: string, instances: seq<string>,
                 from: string, to: string, peers: string -> PeerReply): (r: PaymentSummary)
    ensures internal != "" ==> r == local
    ensures internal == "" ==> r == Add(local, PeerSum(Reachable(instances, from, to, peers), from, to, peers))
    ensures internal == "" && Reachable(instances, from, to, peers) == [] ==> r == local
  {
    OnlyReachablePeersCount(instances, from, to, peers);
    if internal != "" then local else Add(local, PeerSum(instances, from, to, peers))
  }

  lemma AddAssociates(a: PaymentSummary, b: PaymentSummary, c: PaymentSummary)
    ensures Add(Add(a, b), c) == Add(a, Add(b, c))
  {
  }

  /** Merging the peers of two lists is merging each list. */
  lemma {:induction false} PeerSumAppend(a: seq<string>, b: seq<string>, from: string, to: string, peers: string -> PeerReply)
    ensures PeerSum(a + b, from, to, peers) == Add(PeerSum(a, from, to, peers), PeerSum(b, from, to, peers))
    decreases |b|
  {
    if b == [] {
      assert a + b == a;
    } else {
      var init, last := b[..|b| - 1], b[|b| - 1];
      assert (a + b)[..|a + b| - 1] == a + init;
      assert (a + b)[|a + b| - 1] == last;
      PeerSumAppend(a, init, from, to, peers);
      AddAssociates(PeerSum(a, from, to, peers), PeerSum(init, from, to, peers), Contribution(last, from, to, peers));
    }
  }

  /** A peer that is empty or whose fetch fails can be dropped from the list
      without changing the federated summary: partial results, not errors. */
  lemma SkippedPeer(a: seq<string>, i: string, b: seq<string>, from: string, to: string, peers: string -> PeerReply)
    requires i == "" || Fetch(i, from, to, peers).Failure?
    ensures PeerSum(a + [i] + b, from, to, peers) == PeerSum(a + b, from, to, peers)
  {
    PeerSumAppend(a + [i], b, from, to, peers);
    PeerSumAppend(a, b, from, to, peers);
    assert (a + [i])[..|a + [i]| - 1] == a;
    assert PeerSum(a + [i], from, to, peers) == Add(PeerSum(a, from, to, peers), Empty);
  }

  /** The federated summary is the local summary plus the summaries of exactly
      the reachable peers. */
  lemma {:induction false} OnlyReachablePeersCount(instances: seq<string>, from: string, to: string, peers: string -> PeerReply)
    ensures PeerSum(instances, from, to, peers) == PeerSum(Reachable(instances, from, to, peers), from, to, peers)
    decreases |instances|
  {
    if instances != [] {
      var init, last := instances[..|instances| - 1], instances[|instances| - 1];
      OnlyReachablePeersCount(init, from, to, peers);
      var r := Reachable(init, from, to, peers);
      if Fetch(last, from, to, peers).Success? {
        assert Reachable(instances, from, to, peers) == r + [last];
        assert (r + [last])[..|r + [last]| - 1] == r;
      } else {
        assert Reachable(instances, from, to, peers) == r;
      }
    }
  }
}
