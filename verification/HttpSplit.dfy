/** The HTTP drain: bounded retries, and halving a batch that the server finds too large. */
module HttpSplit {

  type Payload = nat

  datatype Response = NetworkError | Status(code: nat)

  predicate Retryable(code: nat) {
    code in {408, 429} || 500 <= code < 600
  }

  datatype Result = Delivered | Unreachable | Rejected

  /** The payloads of a list of batches, in order. */
  function Flatten(batches: seq<seq<Payload>>): seq<Payload> {
    if batches == [] then [] else Flatten(batches[..|batches| - 1]) + batches[|batches| - 1]
  }

  lemma FlattenWith(batches: seq<seq<Payload>>, batch: seq<Payload>)
    ensures Flatten(batches + [batch]) == Flatten(batches) + batch
  {
    assert (batches + [batch])[..|batches|] == batches;
  }

  /** Requests `n` payloads may cost. */
  function Budget(maxAttempts: nat, n: nat): nat {
    if n == 0 then maxAttempts else maxAttempts * (2 * n - 1)
  }

  /** Halves cost no more than what is left after the attempts on the whole. */
  lemma BudgetSplits(maxAttempts: nat, n: nat)
    requires n > 1
    ensures maxAttempts + Budget(maxAttempts, n / 2) + Budget(maxAttempts, n - n / 2) == Budget(maxAttempts, n)
  {
    var a, b := n / 2, n - n / 2;
    assert maxAttempts * (2 * a - 1) + maxAttempts * (2 * b - 1) == maxAttempts * (2 * n - 2);
  }

  /** What the client takes as delivery. */
  predicate Acknowledges(r: Response) {
    r.Status? && r.code < 400 && !Retryable(r.code)
  }

  /** Worth another attempt with the same batch. */
  predicate Passing(r: Response) {
    r.NetworkError? || Retryable(r.code)
  }

  /** The server found the batch too large, and it can be halved. */
  predicate TooLarge(batch: seq<Payload>, r: Response) {
    r.Status? && r.code == 413 && |batch| > 1
  }

  datatype Exchange = Exchange(batch: seq<Payload>, response: Response)

  /** The batches the server acknowledged, in order: those of the requests that it answered so. */
  function Acknowledged(sent: seq<Exchange>): seq<seq<Payload>> {
    if sent == [] then []
    else
      var n := |sent| - 1;
      Acknowledged(sent[..n]) + if Acknowledges(sent[n].response) then [sent[n].batch] else []
  }

  function Received(sent: seq<Exchange>): seq<Payload> {
    Flatten(Acknowledged(sent))
  }

  lemma ReceivedWith(sent: seq<Exchange>, x: Exchange)
    ensures Received(sent + [x]) == Received(sent) + if Acknowledges(x.response) then x.batch else []
  {
    var after := sent + [x];
    assert after[..|sent|] == sent && after[|sent|] == x;
    assert Acknowledged(after) == Acknowledged(sent) + if Acknowledges(x.response) then [x.batch] else [];
    FlattenWith(Acknowledged(sent), x.batch);
    assert Acknowledged(sent) + [] == Acknowledged(sent);
  }

  /** The last request was refused for good: its answer is an error, neither passing nor a reason to split. */
  ghost predicate RefusedLast(sent: seq<Exchange>) {
    && sent != []
    && var x := sent[|sent| - 1];
      x.response.Status? && x.response.code >= 400 && !Passing(x.response) && !TooLarge(x.batch, x.response)
  }

  /** The last `n` requests were attempts with one batch, all of which failed in passing. */
  ghost predicate GaveUp(sent: seq<Exchange>, n: nat) {
    n <= |sent| && exists batch :: AllPassed(sent, n, batch)
  }

  ghost predicate AllPassed(sent: seq<Exchange>, n: nat, batch: seq<Payload>)
    requires n <= |sent|
  {
    forall i :: |sent| - n <= i < |sent| ==> sent[i].batch == batch && Passing(sent[i].response)
  }

  /** What the caller may conclude from how a send of `payloads` ended: on a normal return the server has
      acknowledged everything, once and in order, and otherwise a prefix; a raise has its reason in the last
      answers. */
  ghost predicate Concluded(before: seq<Exchange>, after: seq<Exchange>, payloads: seq<Payload>, maxAttempts: nat, r: Result) {
    && before <= after
    && (exists k: nat :: k <= |payloads| && Received(after) == Received(before) + payloads[..k]
                         && (r.Delivered? ==> k == |payloads|))
    && (r.Rejected? ==> RefusedLast(after))
    && (r.Unreachable? ==> GaveUp(after, maxAttempts))
  }

  class Drain {
    const maxAttempts: nat
    /** What the server answers to each request: any sequence of responses. */
    const answers: nat -> Response
    /** Requests sent so far, with their answers. */
    ghost var sent: seq<Exchange>
    var requests: nat

    constructor (maxAttempts: nat, answers: nat -> Response)
      ensures Valid() && sent == [] && this.maxAttempts == maxAttempts && this.answers == answers
    {
      this.maxAttempts, this.answers, requests, sent := maxAttempts, answers, 0, [];
    }

    /** The record holds exactly the server's answers. */
    ghost predicate Valid()
      reads this
    {
      requests == |sent| && forall i :: 0 <= i < |sent| ==> sent[i].response == answers(i)
    }

    method Post(batch: seq<Payload>) returns (r: Response)
      requires Valid()
      modifies this
      ensures Valid() && r == answers(old(requests)) && sent == old(sent) + [Exchange(batch, r)]
    {
      r := answers(requests);
      requests, sent := requests + 1, sent + [Exchange(batch, r)];
    }

    /** `_send_payloads`.  The number of requests is bounded whatever the server answers. */
    method Send(payloads: seq<Payload>) returns (r: Result)
      requires Valid()
      modifies this
      ensures Valid() && Concluded(old(sent), sent, payloads, maxAttempts, r)
      ensures requests <= old(requests) + Budget(maxAttempts, |payloads|)
      ensures maxAttempts > 0 ==> requests > old(requests)
      decreases |payloads|
    {
      var attempt := 0;
      ghost var start := sent;
      BudgetCoversAttempts(|payloads|);
      hide Budget, Received;
      while attempt < maxAttempts
        invariant 0 <= attempt <= maxAttempts
        invariant Valid() && Tried(start, sent, payloads, attempt)
      {
        ghost var before := sent;
        var response := Post(payloads);
        ReceivedWith(before, Exchange(payloads, response));
        attempt := attempt + 1;
        if response.NetworkError? {
          continue;
        }
        if response.code == 413 && |payloads| > 1 {
          r := SendHalves(payloads, start, attempt);
          return;
        }
        if Retryable(response.code) {
          continue;
        }
        assert payloads[..0] == [] && payloads[..|payloads|] == payloads;
        return if response.code >= 400 then Rejected else Delivered;
      }
      NothingReceived(start, sent, payloads, attempt);
      return Unreachable;
    }

    /** Both halves in turn; a failure of the first keeps the second from being sent. */
    method SendHalves(payloads: seq<Payload>, ghost start: seq<Exchange>, ghost spent: nat) returns (r: Result)
      requires Valid() && |payloads| > 1 && 1 <= spent <= maxAttempts
      requires start <= sent && |sent| == |start| + spent && Received(sent) == Received(start)
      modifies this
      ensures Valid() && Concluded(start, sent, payloads, maxAttempts, r)
      ensures |start| < requests <= |start| + Budget(maxAttempts, |payloads|)
      decreases |payloads|, 0
    {
      var mid := |payloads| / 2;
      BudgetSplits(maxAttempts, |payloads|);
      hide Budget, Received, Concluded;
      ghost var whole := sent;
      r := Send(payloads[..mid]);
      assert whole <= sent by { Grew(whole, sent, payloads[..mid], maxAttempts, r); }
      if !r.Delivered? {
        FirstHalf(start, whole, sent, payloads, mid, maxAttempts, r);
        return;
      }
      ghost var first := sent;
      r := Send(payloads[mid..]);
      BothHalves(start, whole, first, sent, payloads, mid, maxAttempts, r);
      Grew(first, sent, payloads[mid..], maxAttempts, r);
    }

    lemma BudgetCoversAttempts(n: nat)
      ensures maxAttempts <= Budget(maxAttempts, n)
    {
    }
  }

  lemma Grew(before: seq<Exchange>, after: seq<Exchange>, payloads: seq<Payload>, maxAttempts: nat, r: Result)
    requires Concluded(before, after, payloads, maxAttempts, r)
    ensures before <= after
  {
  }

  lemma FirstHalf(start: seq<Exchange>, whole: seq<Exchange>, after: seq<Exchange>, payloads: seq<Payload>, mid: nat, maxAttempts: nat, r: Result)
    requires start <= whole && Received(whole) == Received(start) && mid <= |payloads| && !r.Delivered?
    requires Concluded(whole, after, payloads[..mid], maxAttempts, r)
    ensures Concluded(start, after, payloads, maxAttempts, r)
  {
    hide Received, RefusedLast, GaveUp;
    var k: nat :| k <= mid && Received(after) == Received(whole) + payloads[..mid][..k];
    assert payloads[..mid][..k] == payloads[..k];
  }

  lemma BothHalves(start: seq<Exchange>, whole: seq<Exchange>, first: seq<Exchange>, after: seq<Exchange>, payloads: seq<Payload>,
                   mid: nat, maxAttempts: nat, r: Result)
    requires start <= whole && Received(whole) == Received(start) && mid <= |payloads|
    requires Concluded(whole, first, payloads[..mid], maxAttempts, Delivered)
    requires Concluded(first, after, payloads[mid..], maxAttempts, r)
    ensures Concluded(start, after, payloads, maxAttempts, r)
  {
    hide Received, RefusedLast, GaveUp;
    assert payloads[..mid][..mid] == payloads[..mid];
    assert Received(first) == Received(start) + payloads[..mid];
    var l: nat :| l <= |payloads| - mid && Received(after) == Received(first) + payloads[mid..][..l]
                  && (r.Delivered? ==> l == |payloads| - mid);
    assert payloads[..mid] + payloads[mid..][..l] == payloads[..mid + l];
    assert Received(after) == Received(start) + payloads[..mid + l];
  }

  /** After `attempt` attempts with the whole batch, each of which failed in passing. */
  ghost predicate Tried(start: seq<Exchange>, sent: seq<Exchange>, payloads: seq<Payload>, attempt: nat) {
    && start <= sent && |sent| == |start| + attempt && Received(sent) == Received(start)
    && forall i :: |start| <= i < |sent| ==> sent[i].batch == payloads && Passing(sent[i].response)
  }

  lemma NothingReceived(start: seq<Exchange>, sent: seq<Exchange>, payloads: seq<Payload>, attempt: nat)
    requires Tried(start, sent, payloads, attempt)
    ensures Concluded(start, sent, payloads, attempt, Unreachable)
  {
    assert payloads[..0] == [];
    assert Received(sent) == Received(start) + payloads[..0];
    assert AllPassed(sent, attempt, payloads);
  }

  /** In status codes: a refusal is a client error other than a time-out, a throttling or a batch that could still
      be halved, or a code beyond the server errors; giving up means that the last attempts, all with one batch,
      met a network error, a time-out, a throttling or a server error. */
  lemma ConclusionMeans(before: seq<Exchange>, after: seq<Exchange>, payloads: seq<Payload>, maxAttempts: nat, r: Result)
    requires Concluded(before, after, payloads, maxAttempts, r)
    ensures r.Rejected? ==> after != [] && var x := after[|after| - 1];
      && x.response.Status? && 400 <= x.response.code && !(500 <= x.response.code < 600)
      && x.response.code != 408 && x.response.code != 429 && (x.response.code == 413 ==> |x.batch| <= 1)
    ensures r.Unreachable? ==> maxAttempts <= |after| && forall i, j :: |after| - maxAttempts <= i < |after| && |after| - maxAttempts <= j < |after| ==>
      && after[i].batch == after[j].batch
      && (after[i].response.NetworkError? || after[i].response.code == 408 || after[i].response.code == 429
          || 500 <= after[i].response.code < 600)
  {
    hide Received;
    if r.Unreachable? {
      var batch :| AllPassed(after, maxAttempts, batch);
    }
  }

  /** A batch is acknowledged by any status below 400, and by nothing else. */
  lemma AcknowledgedMeans(sent: seq<Exchange>, x: Exchange)
    ensures Received(sent + [x]) == Received(sent) + if x.response.Status? && x.response.code < 400 then x.batch else []
  {
    ReceivedWith(sent, x);
    hide Received;
  }

  lemma BudgetMeans(maxAttempts: nat, n: nat)
    requires n >= 1
    ensures Budget(maxAttempts, n) == maxAttempts * (2 * n - 1)
  {
  }
}
