/**
 The query cursor and the retry loop under it.  What the network, the clock and the
 operator do is a parameter: server(n, from) describes the n-th post ever issued,
 asking for blocks from `from` on.
 */
module Streams {
  import opened Batches
  import opened Wrappers

  const NANOSECONDS_PER_SECOND: int := 1_000_000_000
  const MAX_RETRY_DELAY: int := 60 * NANOSECONDS_PER_SECOND
  const STATUS_OK: nat := 200
  const STATUS_TOO_MANY_REQUESTS: nat := 429

  datatype Body = BadJson | Json(batch: Batch)

  datatype Reply = TransportError | Http(status: nat, retryAfter: int, body: Body)

  /** One turn of the retry loop: cancellation can strike before the post, after it, or during the sleep. */
  datatype Attempt = Attempt(
    cancelledBefore: bool,
    reply: Reply,
    cancelledAfter: bool,
    jitter: int -> int,
    sleepCut: bool)

  type Server = (nat, nat) -> Attempt

  /** time.Duration arithmetic wraps like any int64. */
  function Wrap64(d: int): (w: int)
    ensures -0x8000_0000_0000_0000 <= w < 0x8000_0000_0000_0000 && (w - d) % 0x1_0000_0000_0000_0000 == 0
  {
    (d + 0x8000_0000_0000_0000) % 0x1_0000_0000_0000_0000 - 0x8000_0000_0000_0000
  }

  function Doubled(delay: int, times: nat): int {
    if times == 0 then delay else Wrap64(Doubled(delay, times - 1) * 2)
  }

  function Pow2(n: nat): nat {
    if n == 0 then 1 else 2 * Pow2(n - 1)
  }

  /** As long as it fits, the delay is 2^times the base. */
  lemma {:induction false} DoubledIsPower(delay: nat, times: nat)
    requires delay * Pow2(times) < 0x8000_0000_0000_0000
    ensures Doubled(delay, times) == delay * Pow2(times)
  {
    if times > 0 {
      TwiceTheProduct(delay, Pow2(times - 1));
      DoubledIsPower(delay, times - 1);
    }
  }

  lemma TwiceTheProduct(a: nat, b: nat)
    ensures a * (2 * b) == 2 * (a * b)
  {
  }

  predicate Transient(r: Reply) {
    r.TransportError? || r.status == STATUS_TOO_MANY_REQUESTS
  }

  predicate Succeeded(r: Reply) {
    r.Http? && r.status == STATUS_OK
  }

  predicate Answers(r: Reply, body: Body) {
    r.Http? && r.status == 200 && r.body == body
  }

  /** A server's Retry-After is obeyed to the second, jitter and doubling otherwise; neither beyond a minute. */
  function Wait(a: Attempt, delay: int): (w: int)
    ensures w <= MAX_RETRY_DELAY
    ensures a.reply.Http? && 0 < a.reply.retryAfter <= MAX_RETRY_DELAY ==> w == a.reply.retryAfter
    ensures (a.reply.Http? ==> a.reply.retryAfter <= 0) && a.jitter(delay) <= MAX_RETRY_DELAY ==> w == a.jitter(delay)
  {
    var wait := if a.reply.Http? && a.reply.retryAfter > 0 then a.reply.retryAfter else a.jitter(delay);
    if wait > MAX_RETRY_DELAY then MAX_RETRY_DELAY else wait
  }

  function Retries(maxRetries: int): nat {
    if maxRetries < 0 then 0 else maxRetries
  }

  /** What one request comes to: its body if it got one, and the posts and sleeps issued by then. */
  datatype Request = Request(result: Option<Body>, posts: nat, waits: seq<int>)

  /** The rest of a request whose next post is the n-th, after so many attempts and these sleeps. */
  function Requested(server: Server, from: nat, n: nat, attempt: nat, delay: int, waits: seq<int>,
                     maxRetries: int): Request
    decreases Retries(maxRetries) - attempt
  {
    var a := server(n, from);
    if a.cancelledBefore then Request(None, n, waits)
    else if Succeeded(a.reply) then Request(Some(a.reply.body), n + 1, waits)
    else if !Transient(a.reply) || attempt >= maxRetries || (a.reply.TransportError? && a.cancelledAfter)
    then Request(None, n + 1, waits)
    else if a.sleepCut then Request(None, n + 1, waits + [Wait(a, delay)])
    else Requested(server, from, n + 1, attempt + 1, Wrap64(delay * 2), waits + [Wait(a, delay)], maxRetries)
  }

  /**
   A request posts at most once more than it may retry, and returns exactly the
   body of its last post if that one came with status 200.
   */
  lemma {:induction false} RequestIsBounded(server: Server, from: nat, n: nat, attempt: nat, delay: int,
                                            waits: seq<int>, maxRetries: int)
    requires attempt <= Retries(maxRetries)
    ensures var q := Requested(server, from, n, attempt, delay, waits, maxRetries);
            && n <= q.posts <= n + Retries(maxRetries) - attempt + 1
            && (q.result.Some? ==> q.posts > n && Answers(server(q.posts - 1, from).reply, q.result.value))
            && (q.result.None? && q.posts > n ==> 
                  server(q.posts - 1, from).reply.Http? ==> server(q.posts - 1, from).reply.status != 200)
    decreases Retries(maxRetries) - attempt
  {
    var a := server(n, from);
    if !a.cancelledBefore && Transient(a.reply) && attempt < maxRetries {
      RequestIsBounded(server, from, n + 1, attempt + 1, Wrap64(delay * 2), waits + [Wait(a, delay)], maxRetries);
    }
  }

  /** The post never arrived and nobody gave up on it, or the server asked for patience; and the sleep ends. */
  predicate RiddenOut(a: Attempt) {
    && !a.cancelledBefore && !a.sleepCut
    && match a.reply
       case TransportError => !a.cancelledAfter
       case Http(status, _, _) => status == 429
  }

  /** The m-th post is answered with this body, all from the n-th up to it being ridden out. */
  ghost predicate AnsweredAt(server: Server, from: nat, n: nat, m: nat, body: Body) {
    && n <= m && !server(m, from).cancelledBefore && Answers(server(m, from).reply, body)
    && forall i :: n <= i < m ==> RiddenOut(server(i, from))
  }

  lemma AnsweredLater(server: Server, from: nat, n: nat, m: nat, body: Body)
    requires n < m
    ensures AnsweredAt(server, from, n, m, body) <==>
              RiddenOut(server(n, from)) && AnsweredAt(server, from, n + 1, m, body)
  {
  }

  ghost predicate AnsweredBy(server: Server, from: nat, n: nat, last: nat, body: Body) {
    exists m: nat :: m <= last && AnsweredAt(server, from, n, m, body)
  }

  lemma PastTheFirst(server: Server, from: nat, n: nat, last: nat, body: Body)
    requires RiddenOut(server(n, from))
    ensures AnsweredBy(server, from, n, last, body) <==> AnsweredBy(server, from, n + 1, last, body)
  {
    if m: nat :| m <= last && AnsweredAt(server, from, n, m, body) {
      AnsweredLater(server, from, n, m, body);
    }
    var later := n + 1;
    if m: nat :| m <= last && AnsweredAt(server, from, later, m, body) {
      AnsweredLater(server, from, n, m, body);
    }
  }

  lemma AtOnceOrNever(server: Server, from: nat, n: nat, last: nat, body: Body)
    requires n <= last && (RiddenOut(server(n, from)) ==> last == n)
    ensures AnsweredBy(server, from, n, last, body) <==> AnsweredAt(server, from, n, n, body)
  {
    if m: nat :| m <= last && AnsweredAt(server, from, n, m, body) {
      if n < m {
        AnsweredLater(server, from, n, m, body);
      }
    }
  }

  /** A request gets a body exactly when no more failures than it may retry come before it. */
  lemma {:induction false} RequestIsAnswered(server: Server, from: nat, n: nat, attempt: nat, delay: int,
                                             waits: seq<int>, maxRetries: int, body: Body)
    requires attempt <= Retries(maxRetries)
    ensures Requested(server, from, n, attempt, delay, waits, maxRetries).result == Some(body) <==>
              AnsweredBy(server, from, n, n + Retries(maxRetries) - attempt, body)
    decreases Retries(maxRetries) - attempt
  {
    var a := server(n, from);
    if RiddenOut(a) && attempt < maxRetries {
      var more := waits + [Wait(a, delay)];
      RequestIsAnswered(server, from, n + 1, attempt + 1, Wrap64(delay * 2), more, maxRetries, body);
      PastTheFirst(server, from, n, n + Retries(maxRetries) - attempt, body);
    } else {
      AtOnceOrNever(server, from, n, n + Retries(maxRetries) - attempt, body);
    }
  }

  /** The batch to hand out, if the body holds one that moves the cursor. */
  function Delivered(body: Option<Body>, from: nat): Option<Batch> {
    if body.Some? && body.value.Json? && body.value.batch.nextBlock > from then Some(body.value.batch) else None
  }

  /**
   After each post but the last the request sleeps.  The k-th sleep follows a transient
   failure, is the k-th of the schedule, and is at most a minute.
   */
  lemma {:induction false} RequestSleepsOnSchedule(server: Server, from: nat, n: nat, attempt: nat, delay: int,
                                                   waits: seq<int>, maxRetries: int, k: nat)
    requires attempt <= Retries(maxRetries)
    ensures var q := Requested(server, from, n, attempt, delay, waits, maxRetries);
            && waits <= q.waits && |q.waits| - |waits| <= q.posts - n <= |q.waits| - |waits| + 1
            && (k < |q.waits| - |waits| ==>
                  && (server(n + k, from).reply.Http? ==> server(n + k, from).reply.status == 429)
                  && q.waits[|waits| + k] == Wait(server(n + k, from), Doubled(delay, k))
                  && q.waits[|waits| + k] <= 60_000_000_000)
    decreases Retries(maxRetries) - attempt
  {
    var a := server(n, from);
    var more := waits + [Wait(a, delay)];
    if !a.cancelledBefore && Transient(a.reply) && !Succeeded(a.reply) && attempt < maxRetries && !a.sleepCut {
      RequestSleepsOnSchedule(server, from, n + 1, attempt + 1, Wrap64(delay * 2), more, maxRetries,
                              if k == 0 then 0 else k - 1);
      if k > 0 {
        assert n + 1 + (k - 1) == n + k && |more| + (k - 1) == |waits| + k;
        DoubledTwice(delay, k - 1);
      }
    }
  }

  lemma {:induction false} DoubledTwice(delay: int, times: nat)
    ensures Doubled(Wrap64(delay * 2), times) == Doubled(delay, times + 1)
  {
    if times > 0 {
      DoubledTwice(delay, times - 1);
    }
  }

  /** What so many requests may cost in posts, at perRequest each: their product. */
  function Budget(requests: nat, perRequest: nat): nat {
    if requests == 0 then 0 else Budget(requests - 1, perRequest) + perRequest
  }

  lemma {:induction false} BudgetIsProduct(requests: nat, perRequest: nat)
    ensures Budget(requests, perRequest) == requests * perRequest
  {
    if requests > 0 {
      BudgetIsProduct(requests - 1, perRequest);
    }
  }

  lemma {:induction false} BudgetGrows(fewer: nat, requests: nat, perRequest: nat)
    requires fewer <= requests
    ensures Budget(fewer, perRequest) <= Budget(requests, perRequest)
    decreases requests
  {
    if fewer < requests {
      BudgetGrows(fewer, requests - 1, perRequest);
    }
  }

  class HttpFetcher {
    const maxRetries: int
    const baseDelay: int
    var requests: nat     // batches asked for so far
    var posts: nat        // posts issued so far
    var waits: seq<int>   // sleeps begun so far

    constructor (maxRetries: int, baseDelay: int)
      ensures this.maxRetries == maxRetries && this.baseDelay == baseDelay
      ensures requests == 0 && posts == 0 && waits == [] && WithinBudget()
    {
      this.maxRetries, this.baseDelay := maxRetries, baseDelay;
      requests, posts, waits := 0, 0, [];
    }

    /** However often the server fails, a request costs no more than its retries allow. */
    predicate WithinBudget()
      reads this
    {
      posts <= Budget(requests, Retries(maxRetries) + 1)
    }

    /** What a request for blocks from here on will come to. */
    function Outlook(server: Server, from: nat): Request
      reads this
    {
      Requested(server, from, posts, 0, baseDelay, waits, maxRetries)
    }

    /** None is the error return. */
    method PostWithRetry(server: Server, from: nat) returns (r: Option<Body>)
      modifies this
      ensures requests == old(requests) + 1
      ensures old(Outlook(server, from)) == Request(r, posts, waits)
    {
      requests := requests + 1;
      var delay, attempt := baseDelay, 0;
      while true
        invariant 0 <= attempt <= Retries(maxRetries) && requests == old(requests) + 1
        invariant Requested(server, from, posts, attempt, delay, waits, maxRetries)
                  == Requested(server, from, old(posts), 0, baseDelay, old(waits), maxRetries)
        decreases Retries(maxRetries) - attempt
      {
        var a := server(posts, from);
        if a.cancelledBefore {
          return None;
        }
        posts := posts + 1;
        if a.reply.TransportError? {
          if a.cancelledAfter {
            return None;
          }
          if attempt >= maxRetries {
            return None;
          }
        } else if a.reply.status == STATUS_OK {
          return Some(a.reply.body);
        } else if !(a.reply.status == STATUS_TOO_MANY_REQUESTS && attempt < maxRetries) {
          return None;
        }
        waits := waits + [Wait(a, delay)];
        if a.sleepCut {
          return None;
        }
        delay := Wrap64(delay * 2);
        attempt := attempt + 1;
      }
    }
  }

  datatype NextResult = End | Got(batch: Batch) | Failed

  function Handed(r: NextResult): Option<Batch> {
    if r.Got? then Some(r.batch) else None
  }

  class HttpStream {
    const fetcher: HttpFetcher
    const bound: nat   // exclusive
    var next: nat
    var done: bool

    constructor (fetcher: HttpFetcher, from: nat, bound: nat)
      ensures this.fetcher == fetcher && this.bound == bound && next == from && !done
    {
      this.fetcher, this.bound := fetcher, bound;
      next, done := from, false;
    }

    /**
     A batch is handed out just when the request's body holds one that moves the cursor,
     and then the cursor is where the server stopped.  A server that does not advance
     kills the stream.
     */
    method Next(server: Server) returns (r: NextResult)
      requires fetcher.WithinBudget()
      modifies this, fetcher
      ensures fetcher.WithinBudget()
      ensures fetcher.requests == old(fetcher.requests) + if old(done) then 0 else 1
      ensures fetcher.posts >= old(fetcher.posts)
      ensures !old(done) ==> fetcher.posts <= old(fetcher.posts) + Retries(fetcher.maxRetries) + 1
      ensures old(done) <==> r.End?
      ensures r.End? ==> done && next == old(next)
      ensures r.End? ==> fetcher.posts == old(fetcher.posts) && fetcher.waits == old(fetcher.waits)
      ensures !old(done) ==>
                var q := old(fetcher.Outlook(server, next));
                && fetcher.posts == q.posts && fetcher.waits == q.waits
                && Handed(r) == Delivered(q.result, old(next))
      ensures fetcher.posts > old(fetcher.posts) ==>
                forall b :: AnswersWith(server, fetcher.posts - 1, old(next), b) && b.nextBlock > old(next) ==>
                  r == Got(b)
      ensures r.Got? ==> Serves(server, old(next), r.batch) && r.batch.nextBlock > old(next)
                         && next == r.batch.nextBlock && done == (next >= bound)
      ensures r.Failed? ==> next == old(next)
      ensures r.Failed? && done ==> exists b :: Serves(server, next, b) && b.nextBlock <= next
      ensures fetcher.posts > old(fetcher.posts) ==>
                forall b :: AnswersWith(server, fetcher.posts - 1, old(next), b) && b.nextBlock <= old(next) ==>
                  r.Failed? && done
    {
      if done {
        return End;
      }
      var body := fetcher.PostWithRetry(server, next);
      RequestIsBounded(server, next, old(fetcher.posts), 0, fetcher.baseDelay, old(fetcher.waits), fetcher.maxRetries);
      if body.None? {
        return Failed;
      }
      if body.value.BadJson? {
        return Failed;
      }
      var batch := body.value.batch;
      assert AnswersWith(server, fetcher.posts - 1, next, batch);
      if batch.nextBlock <= next {
        done := true;
        return Failed;
      }
      next := batch.nextBlock;
      if next >= bound {
        done := true;
      }
      return Got(batch);
    }
  }

  ghost predicate AnswersWith(server: Server, n: nat, from: nat, b: Batch) {
    Answers(server(n, from).reply, Json(b))
  }

  ghost predicate Serves(server: Server, from: nat, b: Batch) {
    exists n: nat :: AnswersWith(server, n, from, b)
  }
}
