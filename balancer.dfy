/** The load balancer of lb/main.go: two independent alternation flags, one
    for payment submissions (`post`) and one for summary queries (`get`), each
    read and then negated on every request, and the URLs of the two backends.
    The WebSocket writes and the HTTP GET are oracles: each request is given
    the outcome the network would produce. */
module Balancer {

  datatype Backend = Api1 | Api2

  /** `getWsUrl`: the WebSocket URL of a backend host. */
  function WsUrl(host: string): (u: string)
    ensures |u| == |host| + 8
    ensures u[..5] == "ws://" && u[|u| - 3..] == "/ws"
    ensures u[5..|u| - 3] == host
  {
    "ws://" + host + "/ws"
  }

  /** `getHttpUrl`: the HTTP base URL of a backend host. */
  function HttpUrl(host: string): (u: string)
    ensures |u| == |host| + 7
    ensures u[..7] == "http://" && u[7..] == host
  {
    "http://" + host
  }

  /** The backend a flag value selects: `true` is API1. */
  function Route(flag: bool): Backend
  {
    if flag then Api1 else Api2
  }

  /** The backends chosen by `n` consecutive requests when the flag starts at
      `flag`. */
  function Routes(flag: bool, n: nat): (r: seq<Backend>)
    ensures |r| == n
    decreases n
  {
    if n == 0 then [] else [Route(flag)] + Routes(!flag, n - 1)
  }

  /** How many of `routes` go to `b`. */
  function Hits(routes: seq<Backend>, b: Backend): nat
    decreases |routes|
  {
    if routes == [] then 0
    else (if routes[0] == b then 1 else 0) + Hits(routes[1..], b)
  }

  /** The `i`-th of consecutive requests goes where the starting flag points
      for even `i` and to the other backend for odd `i`. */
  lemma {:induction false} RoutesAlternate(flag: bool, n: nat, i: nat)
    requires i < n
    ensures Routes(flag, n)[i] == Route(if i % 2 == 0 then flag else !flag)
    decreases n
  {
    if i > 0 {
      RoutesAlternate(!flag, n - 1, i - 1);
    }
  }

  /** Strict alternation: consecutive requests never go to the same backend. */
  lemma StrictAlternation(flag: bool, n: nat, i: nat)
    requires i + 1 < n
    ensures Routes(flag, n)[i] != Routes(flag, n)[i + 1]
  {
    RoutesAlternate(flag, n, i);
    RoutesAlternate(flag, n, i + 1);
  }

  /** Even split: any `2k` consecutive requests send exactly `k` to each
      backend, whatever the flag was before them. */
  lemma {:induction false} EvenSplit(flag: bool, k: nat)
    ensures Hits(Routes(flag, 2 * k), Api1) == k
    ensures Hits(Routes(flag, 2 * k), Api2) == k
    decreases k
  {
    if k > 0 {
      var rest := Routes(flag, 2 * k)[1..];
      assert rest == Routes(!flag, 2 * k - 1);
      assert rest[1..] == Routes(flag, 2 * (k - 1));
      EvenSplit(flag, k - 1);
    }
  }

  /** What happened to a proxied GET: the backend could not be reached, its
      body could not be read, or it answered. */
  datatype GetReply = Unreachable | Unreadable | Answer(status: int, body: seq<char>)

  /** The proxy's response: the backend's status and body unchanged, or an
      error status of the proxy's own. */
  datatype Response = Relayed(status: int, body: seq<char>) | ProxyError(status: int)

  const StatusOK: int := 200
  const StatusInternalServerError: int := 500
  const StatusBadGateway: int := 502

  class LoadBalancer {
    /** The flag of `handlePost`: `true` sends the next payment to API1. */
    var post: bool
    /** The flag of `handleGet`: `true` sends the next query to API1. */
    var get: bool
    const httpApi1: string
    const httpApi2: string

    /** The state `main` sets up from the two backend hosts. */
    constructor (api1: string, api2: string)
      ensures !post && !get
      ensures httpApi1 == HttpUrl(api1) && httpApi2 == HttpUrl(api2)
    {
      post, get := false, false;
      httpApi1, httpApi2 := HttpUrl(api1), HttpUrl(api2);
    }

    /** `handlePost`: route by the current `post` and negate it, then write the
        body to that backend's WebSocket (`written` says whether the write
        succeeds). A failed write answers 500 and is not retried on the other
        backend; the flag has already moved on. */
    method HandlePost(body: seq<char>, written: bool) returns (status: int, ghost writes: seq<Backend>)
      modifies this`post
      ensures post == !old(post)
      ensures writes == [Route(old(post))]
      ensures status == if written then StatusOK else StatusInternalServerError
    {
      var sendToApi1 := post;
      post := !post;
      if sendToApi1 {
        writes := [Api1];
        if !written {
          return StatusInternalServerError, writes;
        }
      } else {
        writes := [Api2];
        if !written {
          return StatusInternalServerError, writes;
        }
      }
      return StatusOK, writes;
    }

    /** `handleGet`: route by the current `get` and negate it, proxy the query
        string to that backend's summary endpoint, and relay its answer. */
    method HandleGet(query: seq<char>, reply: GetReply) returns (resp: Response, ghost target: string)
      modifies this`get
      ensures get == !old(get)
      ensures var base := if old(get) then httpApi1 else httpApi2;
        target == base + "/payments-summary" + (if |query| > 0 then "?" + query else "")
      ensures reply.Unreachable? ==> resp == ProxyError(StatusBadGateway)
      ensures reply.Unreadable? ==> resp == ProxyError(StatusInternalServerError)
      ensures reply.Answer? ==> resp == Relayed(reply.status, reply.body)
    {
      var useApi1 := get;
      get := !get;
      var targetUrl: string;
      if useApi1 {
        targetUrl := httpApi1;
      } else {
        targetUrl := httpApi2;
      }
      targetUrl := targetUrl + "/payments-summary";
      if |query| > 0 {
        targetUrl := targetUrl + "?" + query;
      }
      target := targetUrl;
      match reply
      case Unreachable =>
        resp := ProxyError(StatusBadGateway);
      case Unreadable =>
        resp := ProxyError(StatusInternalServerError);
      case Answer(status, body) =>
        resp := Relayed(status, body);
    }
  }

  /** `n + 1` consecutive requests are `n` of them followed by the one the
      parity of `n` selects. */
  lemma {:induction false} RoutesSnoc(flag: bool, n: nat)
    ensures Routes(flag, n + 1) == Routes(flag, n) + [Route(if n % 2 == 0 then flag else !flag)]
    decreases n
  {
    if n > 0 {
      RoutesSnoc(!flag, n - 1);
      calc {
        Routes(flag, n + 1);
        [Route(flag)] + Routes(!flag, n);
        [Route(flag)] + (Routes(!flag, n - 1) + [Route(if (n - 1) % 2 == 0 then !flag else flag)]);
        Routes(flag, n) + [Route(if n % 2 == 0 then flag else !flag)];
      }
    }
  }

  /** A run of `handlePost` calls, one per element of `written` (whether that
      write succeeds): the backends written to are exactly `Routes` from the
      flag before the run, so the alternation and even-split lemmas hold of
      the load balancer itself. */
  method Submissions(lb: LoadBalancer, written: seq<bool>) returns (ghost ws: seq<Backend>)
    modifies lb`post
    ensures ws == Routes(old(lb.post), |written|)
    ensures lb.post == (if |written| % 2 == 0 then old(lb.post) else !old(lb.post))
  {
    ws := [];
    for i := 0 to |written|
      invariant ws == Routes(old(lb.post), i)
      invariant lb.post == (if i % 2 == 0 then old(lb.post) else !old(lb.post))
    {
      var _, w := lb.HandlePost("", written[i]);
      RoutesSnoc(old(lb.post), i);
      ws := ws + w;
    }
  }

  /** A burst of summary queries between two payment submissions does not
      change where the second submission goes: it goes to the other backend
      than the first, whatever the writes and the proxied replies do. */
  method GetsDoNotSteerPosts(lb: LoadBalancer, w1: bool, queries: seq<seq<char>>,
                             replies: seq<GetReply>, w2: bool)
    returns (ghost first: seq<Backend>, ghost second: seq<Backend>)
    requires |replies| == |queries|
    modifies lb
    ensures first == [Route(old(lb.post))] && second == [Route(!old(lb.post))]
    ensures lb.post == old(lb.post)
  {
    var _, f := lb.HandlePost("", w1);
    first := f;
    for i := 0 to |queries|
      invariant lb.post == !old(lb.post)
    {
      var _, _ := lb.HandleGet(queries[i], replies[i]);
    }
    var _, g := lb.HandlePost("", w2);
    second := g;
  }
}
