/**
 * The redirect-following loop of `getStream` (src/utils/Request.ts) and of
 * `fetchStream` (src/utils/stream.ts); the two loops are the same text and are
 * modelled once.
 *
 * The transport is abstract: `net` maps each URL the network answers to the
 * response a request for it receives; a URL outside `net` makes the request
 * reject. A 3xx response whose `location` header is present and non-empty is
 * followed (sections 15.4 and 10.2.2 of RFC 9110); a location already followed
 * once is a redirect loop. The starting URL is not recorded as visited.
 */
module Redirects {
  import opened Common

  /** What the loop reads of a response: the status, the `location` header and whether a body came with it. */
  datatype Response = Response(status: int, location: Option<Url>, hasBody: bool)

  datatype FetchError =
    | TransportError(url: Url)   // the request for `url` rejected (it is not in `net`)
    | RedirectLoop               // "Redirection loop detected"

  /** The loop condition: a 3xx status with a truthy `location` header. */
  predicate IsRedirect(r: Response) {
    300 <= r.status < 400 && r.location.Some? && r.location.value != ""
  }

  /**
   * The outcome of the loop once `response` is in hand and the locations in
   * `visited` have been followed.
   */
  function Resolve(net: map<Url, Response>, response: Response, visited: set<Url>): Result<Response, FetchError>
    requires visited <= net.Keys
    decreases |net.Keys - visited|
  {
    if !IsRedirect(response) then Ok(response)
    else
      var target := response.location.value;
      if target in visited then Err(RedirectLoop)
      else if target !in net then Err(TransportError(target))
      else
        assert net.Keys - (visited + {target}) < net.Keys - visited;
        Resolve(net, net[target], visited + {target})
  }

  /** The outcome of a whole request for `url`. */
  function Fetch(net: map<Url, Response>, url: Url): Result<Response, FetchError> {
    if url !in net then Err(TransportError(url)) else Resolve(net, net[url], {})
  }

  /**
   * `getStream(url)` / `fetchStream(url)`: issues the request, then follows
   * redirects until a response is not a redirect, a location repeats, or a
   * request rejects. Every followed hop adds a URL of `net` that was not yet
   * visited, so the loop ends after at most |net| hops.
   */
  method FollowRedirects(net: map<Url, Response>, url: Url) returns (r: Result<Response, FetchError>, hops: nat)
    ensures r == Fetch(net, url)
    ensures hops <= |net.Keys|
    ensures r.Ok? ==> !IsRedirect(r.value)
  {
    hops := 0;
    if url !in net {
      return Err(TransportError(url)), hops;
    }
    var response := net[url];
    var visited: set<Url> := {};
    while IsRedirect(response)
      invariant visited <= net.Keys
      invariant hops == |visited|
      invariant Resolve(net, response, visited) == Fetch(net, url)
      decreases |net.Keys - visited|
    {
      var target := response.location.value;
      if target in visited {
        return Err(RedirectLoop), hops;
      }
      if target !in net {
        return Err(TransportError(target)), hops;
      }
      assert net.Keys - (visited + {target}) < net.Keys - visited;
      visited := visited + {target};
      hops := hops + 1;
      response := net[target];
    }
    SubsetCardinality(visited, net.Keys);
    return Ok(response), hops;
  }

  lemma SubsetCardinality(a: set<Url>, b: set<Url>)
    requires a <= b
    ensures |a| <= |b|
  {
    assert b == a + (b - a);
  }

  /** A successful fetch ends on a non-redirect response that some URL of `net` returns. */
  lemma {:induction false} ResolveOk(net: map<Url, Response>, response: Response, visited: set<Url>)
    requires visited <= net.Keys
    requires Resolve(net, response, visited).Ok?
    ensures var final := Resolve(net, response, visited).value;
      !IsRedirect(final) && (final == response || final in net.Values)
    decreases |net.Keys - visited|
  {
    if IsRedirect(response) {
      var target := response.location.value;
      assert net.Keys - (visited + {target}) < net.Keys - visited;
      ResolveOk(net, net[target], visited + {target});
      assert net[target] in net.Values;
    }
  }

  /** A response that is not a redirect is returned as it is. */
  lemma NoRedirectReturnsFirst(net: map<Url, Response>, url: Url)
    requires url in net && !IsRedirect(net[url])
    ensures Fetch(net, url) == Ok(net[url])
  {
  }

  /** A URL that redirects to itself is requested twice and then fails as a loop. */
  lemma SelfRedirectIsLoop(a: Url, status: int)
    requires a != "" && 300 <= status < 400
    ensures var net := map[a := Response(status, Some(a), false)];
      Fetch(net, a) == Err(RedirectLoop)
  {
    var net := map[a := Response(status, Some(a), false)];
    assert IsRedirect(net[a]);
    assert Resolve(net, net[a], {a}) == Err(RedirectLoop);
    assert Resolve(net, net[a], {}) == Resolve(net, net[a], {} + {a});
  }

  /** A -> B -> A fails as a loop rather than going on forever. */
  lemma AlternatingRedirectIsLoop(a: Url, b: Url)
    requires a != "" && b != "" && a != b
    ensures var net := map[a := Response(302, Some(b), false), b := Response(302, Some(a), false)];
      Fetch(net, a) == Err(RedirectLoop)
  {
    var net := map[a := Response(302, Some(b), false), b := Response(302, Some(a), false)];
    assert IsRedirect(net[a]) && IsRedirect(net[b]);
    assert {b} + {a} == {b, a};
    assert Resolve(net, net[b], {b, a}) == Err(RedirectLoop);
    assert Resolve(net, net[a], {b}) == Resolve(net, net[b], {b} + {a});
    assert Resolve(net, net[a], {}) == Resolve(net, net[b], {} + {b});
  }

  /** A -> B -> C is followed to C's response. */
  lemma ChainIsFollowed(a: Url, b: Url, c: Url, final: Response)
    requires a != "" && b != "" && c != "" && a != b && b != c && a != c
    requires !IsRedirect(final)
    ensures var net := map[a := Response(301, Some(b), false), b := Response(307, Some(c), false), c := final];
      Fetch(net, a) == Ok(final)
  {
    var net := map[a := Response(301, Some(b), false), b := Response(307, Some(c), false), c := final];
    assert IsRedirect(net[a]) && IsRedirect(net[b]);
    assert Resolve(net, net[c], {b, c}) == Ok(final);
    assert Resolve(net, net[b], {b}) == Resolve(net, net[c], {b} + {c});
    assert Resolve(net, net[a], {}) == Resolve(net, net[b], {} + {b});
  }
  // ---------------------------------------------------------------------------
  // The chain of requests, without loop detection
  // ---------------------------------------------------------------------------

  /**
   * The URL of the k-th request for `url` (the 0-th is `url` itself), as long
   * as every earlier response was a redirect: each step requests the
   * previous response's location. Nothing here remembers what was visited.
   */
  function Walk(net: map<Url, Response>, url: Url, k: nat): Option<Url> {
    if k == 0 then Some(url)
    else match Walk(net, url, k - 1)
      case None => None
      case Some(u) => if u in net && IsRedirect(net[u]) then Some(net[u].location.value) else None
  }

  /** The locations followed by the first `k` hops are pairwise different. */
  predicate DistinctUpTo(net: map<Url, Response>, url: Url, k: nat) {
    forall i, j :: 1 <= i < j <= k ==> Walk(net, url, i) != Walk(net, url, j)
  }

  /** The chain stops at its k-th request with a response that is not a redirect, no location having repeated. */
  predicate OkAt(net: map<Url, Response>, url: Url, k: nat) {
    Walk(net, url, k).Some? && Walk(net, url, k).value in net && !IsRedirect(net[Walk(net, url, k).value])
    && DistinctUpTo(net, url, k)
  }

  /** The k-th hop's location was already followed by an earlier hop, and none repeated before. */
  predicate LoopAt(net: map<Url, Response>, url: Url, k: nat) {
    1 <= k && Walk(net, url, k).Some? && DistinctUpTo(net, url, k - 1)
    && exists i :: 1 <= i < k && Walk(net, url, i) == Walk(net, url, k)
  }

  /** The chain reaches, without a repeated location, the URL `v` that the network does not answer. */
  predicate TransportAt(net: map<Url, Response>, url: Url, k: nat, v: Url) {
    Walk(net, url, k) == Some(v) && v !in net && DistinctUpTo(net, url, k)
  }

  /** The locations of the first `k` hops. */
  function Visited(net: map<Url, Response>, url: Url, k: nat): set<Url> {
    if k == 0 then {}
    else Visited(net, url, k - 1) + (if Walk(net, url, k).Some? then {Walk(net, url, k).value} else {})
  }

  /** Every visited location was followed by one of the first `k` hops. */
  lemma {:induction false} VisitedWasFollowed(net: map<Url, Response>, url: Url, k: nat, v: Url) returns (i: nat)
    requires v in Visited(net, url, k)
    ensures 1 <= i <= k && Walk(net, url, i) == Some(v)
  {
    if v in Visited(net, url, k - 1) {
      i := VisitedWasFollowed(net, url, k - 1, v);
    } else {
      i := k;
    }
  }

  /** Every location followed by one of the first `k` hops is visited. */
  lemma {:induction false} FollowedIsVisited(net: map<Url, Response>, url: Url, k: nat, i: nat)
    requires 1 <= i <= k && Walk(net, url, i).Some?
    ensures Walk(net, url, i).value in Visited(net, url, k)
  {
    if i < k {
      FollowedIsVisited(net, url, k - 1, i);
    }
  }

  /** A request after the j-th one exists only if the j-th response was a redirect of `net`. */
  lemma {:induction false} WalkBefore(net: map<Url, Response>, url: Url, j: nat, m: nat)
    requires j < m && Walk(net, url, m).Some?
    ensures Walk(net, url, j).Some? && Walk(net, url, j).value in net && IsRedirect(net[Walk(net, url, j).value])
    decreases m
  {
    if m > j + 1 {
      WalkBefore(net, url, j, m - 1);
    }
  }

  lemma {:induction false} VisitedInNet(net: map<Url, Response>, url: Url, k: nat)
    requires Walk(net, url, k).Some? && Walk(net, url, k).value in net
    ensures Visited(net, url, k) <= net.Keys
  {
    if k > 0 {
      WalkBefore(net, url, k - 1, k);
      if k > 1 {
        VisitedInNet(net, url, k - 1);
      }
    }
  }

  /** The outcome `res` is the one the chain's k-th request describes. */
  predicate Classified(net: map<Url, Response>, url: Url, res: Result<Response, FetchError>, k: nat) {
    && (res.Ok? ==> OkAt(net, url, k) && res.value == net[Walk(net, url, k).value])
    && (res == Err(RedirectLoop) ==> LoopAt(net, url, k))
    && (res.Err? && res.error.TransportError? ==> TransportAt(net, url, k, res.error.url))
  }

  /** From the k-th request on, `Resolve` ends where the chain says, at a request numbered `w`. */
  lemma {:induction false} ResolveFollowsWalk(net: map<Url, Response>, url: Url, k: nat) returns (w: nat)
    requires Walk(net, url, k).Some? && Walk(net, url, k).value in net
    requires DistinctUpTo(net, url, k) && Visited(net, url, k) <= net.Keys
    ensures Classified(net, url, Resolve(net, net[Walk(net, url, k).value], Visited(net, url, k)), w)
    decreases |net.Keys - Visited(net, url, k)|
  {
    var u := Walk(net, url, k).value;
    var visited := Visited(net, url, k);
    if !IsRedirect(net[u]) {
      return k;
    }
    var target := net[u].location.value;
    assert Walk(net, url, k + 1) == Some(target);
    if target in visited {
      var i := VisitedWasFollowed(net, url, k, target);
      assert LoopAt(net, url, k + 1);
      return k + 1;
    }
    forall i | 1 <= i <= k
      ensures Walk(net, url, i) != Walk(net, url, k + 1)
    {
      if Walk(net, url, i).Some? {
        FollowedIsVisited(net, url, k, i);
      }
    }
    assert DistinctUpTo(net, url, k + 1);
    if target !in net {
      return k + 1;
    }
    assert Visited(net, url, k + 1) == visited + {target};
    assert net.Keys - (visited + {target}) < net.Keys - visited;
    w := ResolveFollowsWalk(net, url, k + 1);
  }

  /** The outcome of every request is described by the chain, at some request `w`. */
  lemma FetchFollowsWalk(net: map<Url, Response>, url: Url) returns (w: nat)
    ensures Classified(net, url, Fetch(net, url), w)
  {
    if url !in net {
      return 0;
    }
    assert Visited(net, url, 0) == {};
    w := ResolveFollowsWalk(net, url, 0);
  }

  lemma OkIsUnique(net: map<Url, Response>, url: Url, w: nat, w': nat)
    requires OkAt(net, url, w) && OkAt(net, url, w')
    ensures w == w'
  {
    if w < w' {
      WalkBefore(net, url, w, w');
    } else if w' < w {
      WalkBefore(net, url, w', w);
    }
  }

  lemma OkIsNotLoop(net: map<Url, Response>, url: Url, w: nat, w': nat)
    requires OkAt(net, url, w)
    ensures !LoopAt(net, url, w')
  {
    if w < w' {
      if Walk(net, url, w').Some? {
        WalkBefore(net, url, w, w');
      }
    } else {
      assert forall i :: 1 <= i < w' ==> Walk(net, url, i) != Walk(net, url, w');
    }
  }

  lemma OkIsNotTransport(net: map<Url, Response>, url: Url, w: nat, w': nat, v: Url)
    requires OkAt(net, url, w)
    ensures !TransportAt(net, url, w', v)
  {
    if w < w' {
      if Walk(net, url, w').Some? {
        WalkBefore(net, url, w, w');
      }
    } else if w' < w {
      WalkBefore(net, url, w', w);
    }
  }

  lemma TransportIsNotLoop(net: map<Url, Response>, url: Url, w: nat, w': nat, v: Url)
    requires TransportAt(net, url, w', v)
    ensures !LoopAt(net, url, w)
  {
    if w' < w {
      if Walk(net, url, w).Some? {
        WalkBefore(net, url, w', w);
      }
    } else if w' == w {
      forall i | 1 <= i < w
        ensures Walk(net, url, i) != Walk(net, url, w)
      {
        WalkBefore(net, url, i, w);
      }
    } else {
      assert forall i :: 1 <= i < w ==> Walk(net, url, i) != Walk(net, url, w);
    }
  }

  lemma TransportIsUnique(net: map<Url, Response>, url: Url, w: nat, w': nat, v: Url, v': Url)
    requires TransportAt(net, url, w, v) && TransportAt(net, url, w', v')
    ensures v == v'
  {
    if w < w' {
      WalkBefore(net, url, w, w');
    } else if w' < w {
      WalkBefore(net, url, w', w);
    }
  }

  /**
   * A request succeeds with `r` exactly when `r` is the response at the first
   * request of the chain that is not a redirect, reached with every followed
   * location different.
   */
  lemma FetchOkIff(net: map<Url, Response>, url: Url, r: Response)
    ensures Fetch(net, url) == Ok(r) <==> exists w :: OkAt(net, url, w) && r == net[Walk(net, url, w).value]
  {
    var w := FetchFollowsWalk(net, url);
    var res := Fetch(net, url);
    if w' :| OkAt(net, url, w') && r == net[Walk(net, url, w').value] {
      if res.Ok? {
        OkIsUnique(net, url, w, w');
      } else if res == Err(RedirectLoop) {
        OkIsNotLoop(net, url, w', w);
      } else {
        OkIsNotTransport(net, url, w', w, res.error.url);
      }
    }
  }

  /**
   * "Redirection loop detected" is thrown exactly when a followed location
   * repeats one followed before, ahead of any non-redirect response or
   * rejected request.
   */
  lemma FetchLoopIff(net: map<Url, Response>, url: Url)
    ensures Fetch(net, url) == Err(RedirectLoop) <==> exists w :: LoopAt(net, url, w)
  {
    var w := FetchFollowsWalk(net, url);
    var res := Fetch(net, url);
    if w' :| LoopAt(net, url, w') {
      if res.Ok? {
        OkIsNotLoop(net, url, w, w');
      } else if res.error.TransportError? {
        TransportIsNotLoop(net, url, w', w, res.error.url);
      }
    }
  }

  /** A request rejects for `v` exactly when the chain reaches `v`, which the network does not answer, without a repeat. */
  lemma FetchTransportIff(net: map<Url, Response>, url: Url, v: Url)
    ensures Fetch(net, url) == Err(TransportError(v)) <==> exists w :: TransportAt(net, url, w, v)
  {
    var w := FetchFollowsWalk(net, url);
    var res := Fetch(net, url);
    if w' :| TransportAt(net, url, w', v) {
      if res.Ok? {
        OkIsNotTransport(net, url, w, w', v);
      } else if res == Err(RedirectLoop) {
        TransportIsNotLoop(net, url, w, w', v);
      } else {
        TransportIsUnique(net, url, w, w', res.error.url, v);
      }
    }
  }
}
