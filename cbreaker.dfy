/**
  Package cbreaker: a decorator that retries a fetch a bounded number of
  times, sleeping a fixed interval between failed attempts.

  Go's `Fetcher` interface has no Dafny counterpart here (no traits), so a
  fetcher is described by its behaviour: the answer it gives to its n-th
  call (n = 1, 2, ...) with given arguments. A `Retrier` counts the calls it
  has made, so that state depending on the number of calls carries from one
  `Retrier.Fetch` to the next; state depending on the arguments of earlier
  calls (a cache, say) cannot be described this way. `time.Sleep` and the diagnostics printed by `Retrier.Fetch`
  become a ghost trace of `Attempt` and `Wait` events.
*/
module Cbreaker {
  import opened Wrappers

  /** Arguments of a fetch (Go `Args`). */
  type Args = map<string, string>

  /** Data returned by a fetch (Go `Data`). */
  type Data = map<string, string>

  /** Go's `time.Duration`: a signed count of nanoseconds. */
  type Duration = int

  /** The pair `(Data, error)` a fetch returns; `err == None` is Go's nil error. */
  datatype FetchResult = FetchResult(data: Data, err: Option<string>)

  /**
    A fetcher, given by the answer to its n-th call (n >= 1) with some
    arguments. The answer may depend on the call number and the current
    arguments, not on the arguments of earlier calls.
  */
  type Fetcher = (Args, nat) -> FetchResult

  /** Fetcher `f` once it has served `served` calls: its n-th call from now on is its call `served + n`. */
  function After(f: Fetcher, served: nat): Fetcher
  {
    (args: Args, n: nat) => f(args, served + n)
  }

  /** One observable step of `Retrier.Fetch`: the call of attempt `retry`, or a sleep. */
  datatype Event = Attempt(retry: nat, args: Args) | Wait(interval: Duration)

  /** The error text of `Repository.Fetch` on empty arguments. */
  const NoArguments: string := "No arguments are provided"

  /** The fixed data `Repository.Fetch` serves. */
  const Credentials: Data := map["user" := "root", "password" := "swordfish"]

  // ---------------------------------------------------------------------
  // Repository: the reference fetcher
  // ---------------------------------------------------------------------

  /** `Repository.Fetch`: fails on empty arguments, otherwise serves `Credentials`. */
  function RepositoryFetch(args: Args): (r: FetchResult)
    ensures r.err.Some? <==> |args| == 0
    ensures r.err.Some? ==> r.data == map[] && r.err.value == NoArguments
    ensures r.err.None? ==> r.data == map["user" := "root", "password" := "swordfish"]
  {
    if |args| == 0 then FetchResult(map[], Some(NoArguments))
    else FetchResult(Credentials, None)
  }

  /** A `*Repository` used as a `Fetcher`: it keeps no state, so every call answers alike. */
  const Repository: Fetcher := (args: Args, n: nat) => RepositoryFetch(args)

  // ---------------------------------------------------------------------
  // Specification of Retrier.Fetch
  // ---------------------------------------------------------------------

  /** Attempt `retry` of fetcher `f` on `args` returns an error. */
  predicate Fails(f: Fetcher, args: Args, retry: nat)
  {
    f(args, retry).err.Some?
  }

  /** The first attempt in `from..count` that succeeds, if any. */
  function FirstSuccess(f: Fetcher, args: Args, from: nat, count: int): (r: Option<nat>)
    decreases count - from
    ensures r.Some? ==> from <= r.value <= count && !Fails(f, args, r.value)
    ensures r.Some? ==> forall i :: from <= i < r.value ==> Fails(f, args, i)
    ensures r.None? ==> forall i :: from <= i <= count ==> Fails(f, args, i)
  {
    if count < from then None
    else if !Fails(f, args, from) then Some(from)
    else FirstSuccess(f, args, from + 1, count)
  }

  /** How many attempts `Retrier.Fetch` makes with `retryCount` configured. */
  function Attempts(f: Fetcher, args: Args, retryCount: int): nat
  {
    if retryCount <= 0 then 0
    else match FirstSuccess(f, args, 1, retryCount)
      case Some(k) => k
      case None => retryCount
  }

  /** What `Retrier.Fetch` returns with `retryCount` configured. */
  function Outcome(f: Fetcher, args: Args, retryCount: int): FetchResult
  {
    if retryCount <= 0 then FetchResult(map[], None)
    else match FirstSuccess(f, args, 1, retryCount)
      case Some(k) => FetchResult(f(args, k).data, None)
      case None => FetchResult(map[], f(args, retryCount).err)
  }

  /** The events of `j` failed attempts, each followed by a wait. */
  function FailedRounds(j: nat, args: Args, wait: Duration): seq<Event>
  {
    if j == 0 then [] else FailedRounds(j - 1, args, wait) + [Attempt(j, args), Wait(wait)]
  }

  /** The events of a run of `m` attempts: no wait follows the last one. */
  function Trace(m: nat, args: Args, wait: Duration): seq<Event>
  {
    if m == 0 then [] else FailedRounds(m - 1, args, wait) + [Attempt(m, args)]
  }

  /** Number of calls of the wrapped fetcher in a trace. */
  function Calls(events: seq<Event>): nat
  {
    if events == [] then 0
    else Calls(events[..|events| - 1]) + (if events[|events| - 1].Attempt? then 1 else 0)
  }

  /** Number of sleeps in a trace. */
  function Waits(events: seq<Event>): nat
  {
    if events == [] then 0
    else Waits(events[..|events| - 1]) + (if events[|events| - 1].Wait? then 1 else 0)
  }

  /** Total time slept in a trace. */
  function WaitTime(events: seq<Event>): int
  {
    if events == [] then 0
    else WaitTime(events[..|events| - 1]) + (if events[|events| - 1].Wait? then events[|events| - 1].interval else 0)
  }

  // ---------------------------------------------------------------------
  // The decorator
  // ---------------------------------------------------------------------

  /**
    Go `Retrier`: its fields are set once and never updated. `calls` is not a
    Go field: it counts the calls the wrapped fetcher has served through this
    retrier, which is where a stateful fetcher stands.
  */
  class Retrier {
    const RetryCount: int
    const WaitInterval: Duration
    const Fetcher: Fetcher
    var calls: nat

    constructor (retryCount: int, waitInterval: Duration, fetcher: Fetcher)
      ensures RetryCount == retryCount && WaitInterval == waitInterval && Fetcher == fetcher
      ensures calls == 0
    {
      RetryCount := retryCount;
      WaitInterval := waitInterval;
      Fetcher := fetcher;
      calls := 0;
    }

    /**
      `Retrier.Fetch`: attempts 1..RetryCount, returning on the first success,
      returning empty data and the last error after the final failure, and
      sleeping only between failed attempts. Attempt n is the fetcher's next
      call after those it has already served. `events` records each call and
      each sleep in order.
    */
    method Fetch(args: Args) returns (data: Data, err: Option<string>, ghost events: seq<Event>)
      modifies this
      ensures FetchResult(data, err) == Outcome(After(Fetcher, old(calls)), args, RetryCount)
      ensures events == Trace(Attempts(After(Fetcher, old(calls)), args, RetryCount), args, WaitInterval)
      ensures calls == old(calls) + Attempts(After(Fetcher, old(calls)), args, RetryCount)
    {
      ghost var f := After(Fetcher, calls);
      events := [];
      var retry := 1;
      while retry <= RetryCount
        invariant 1 <= retry && (retry == 1 || retry <= RetryCount)
        invariant calls == old(calls) + retry - 1
        invariant forall i :: 1 <= i < retry ==> Fails(f, args, i)
        invariant events == FailedRounds(retry - 1, args, WaitInterval)
      {
        events := events + [Attempt(retry, args)];
        calls := calls + 1;
        var result := Fetcher(args, calls);
        assert result == f(args, retry);
        if result.err.None? {
          assert !Fails(f, args, retry);
          ghost var firstSuccess := FirstSuccess(f, args, 1, RetryCount);
          assert firstSuccess.Some?;
          assert firstSuccess.value == retry;
          return result.data, None, events;
        } else if retry == RetryCount {
          return map[], result.err, events;
        }
        events := events + [Wait(WaitInterval)];
        retry := retry + 1;
      }
      return map[], None, events;
    }
  }

  // ---------------------------------------------------------------------
  // Properties
  // ---------------------------------------------------------------------

  lemma {:induction false} FailedRoundsCounts(j: nat, args: Args, wait: Duration)
    ensures Calls(FailedRounds(j, args, wait)) == j
    ensures Waits(FailedRounds(j, args, wait)) == j
    ensures WaitTime(FailedRounds(j, args, wait)) == j * wait
  {
    if j > 0 {
      var prev := FailedRounds(j - 1, args, wait);
      var mid := prev + [Attempt(j, args)];
      var all := FailedRounds(j, args, wait);
      FailedRoundsCounts(j - 1, args, wait);
      assert all == mid + [Wait(wait)];
      assert all[..|all| - 1] == mid;
      assert mid[..|mid| - 1] == prev;
    }
  }

  /** A run of `m >= 1` attempts makes `m` calls and `m - 1` sleeps, for `(m - 1) * wait` in all. */
  lemma {:induction false} TraceCounts(m: nat, args: Args, wait: Duration)
    requires m >= 1
    ensures Calls(Trace(m, args, wait)) == m
    ensures Waits(Trace(m, args, wait)) == m - 1
    ensures WaitTime(Trace(m, args, wait)) == (m - 1) * wait
  {
    var prev := FailedRounds(m - 1, args, wait);
    var all := Trace(m, args, wait);
    FailedRoundsCounts(m - 1, args, wait);
    assert all[..|all| - 1] == prev;
  }

  lemma {:induction false} FailedRoundsShape(j: nat, args: Args, wait: Duration)
    ensures |FailedRounds(j, args, wait)| == 2 * j
    ensures forall k :: 0 <= k < 2 * j ==>
      FailedRounds(j, args, wait)[k] == if k % 2 == 0 then Attempt(k / 2 + 1, args) else Wait(wait)
  {
    if j > 0 {
      FailedRoundsShape(j - 1, args, wait);
    }
  }

  /**
    A run of `m >= 1` attempts alternates calls and sleeps: the k-th call is
    attempt k with the caller's unchanged `args`, and the run ends with a call.
  */
  lemma {:induction false} TraceShape(m: nat, args: Args, wait: Duration)
    requires m >= 1
    ensures |Trace(m, args, wait)| == 2 * m - 1
    ensures forall k :: 0 <= k < 2 * m - 1 ==>
      Trace(m, args, wait)[k] == if k % 2 == 0 then Attempt(k / 2 + 1, args) else Wait(wait)
    ensures Trace(m, args, wait)[2 * m - 2] == Attempt(m, args)
  {
    FailedRoundsShape(m - 1, args, wait);
  }

  /** A fetcher that fails every attempt is called exactly `n` times; the `n`-th error is returned. */
  lemma AlwaysFailingExhausts(f: Fetcher, args: Args, n: int)
    requires n >= 1
    requires forall i :: 1 <= i <= n ==> Fails(f, args, i)
    ensures Attempts(f, args, n) == n
    ensures Outcome(f, args, n) == FetchResult(map[], f(args, n).err)
    ensures Outcome(f, args, n).err.Some?
  {
    assert Fails(f, args, n);
  }

  /** When attempt `k <= n` is the first success, exactly `k` attempts run and its data is returned. */
  lemma SucceedsOnAttempt(f: Fetcher, args: Args, n: int, k: nat)
    requires 1 <= k <= n
    requires forall i :: 1 <= i < k ==> Fails(f, args, i)
    requires !Fails(f, args, k)
    ensures Attempts(f, args, n) == k
    ensures Outcome(f, args, n) == FetchResult(f(args, k).data, None)
  {
  }

  /** With `RetryCount <= 0` nothing is called, nothing waits, and `Data{}, nil` comes back. */
  lemma NonPositiveRetryCount(f: Fetcher, args: Args, n: int, wait: Duration)
    requires n <= 0
    ensures Attempts(f, args, n) == 0
    ensures Trace(Attempts(f, args, n), args, wait) == []
    ensures Outcome(f, args, n) == FetchResult(map[], None)
  {
  }

  /**
    With `RetryCount >= 1` there are between 1 and `RetryCount` attempts, and
    stopping early means the last attempt succeeded; a failure outcome means
    every attempt failed.
  */
  lemma AttemptsBounds(f: Fetcher, args: Args, n: int)
    requires n >= 1
    ensures 1 <= Attempts(f, args, n) <= n
    ensures !Fails(f, args, Attempts(f, args, n)) <==> Outcome(f, args, n).err.None?
    ensures Attempts(f, args, n) < n ==> Outcome(f, args, n).err.None?
    ensures Outcome(f, args, n).err.Some? ==> forall i :: 1 <= i <= n ==> Fails(f, args, i)
  {
  }

  /** Retrier{5, _, Repository}.Fetch(Args{}) calls 5 times, sleeps 4 times and returns the repository's error. */
  lemma RepositoryEmptyArgsScenario(served: nat, wait: Duration)
    ensures Attempts(After(Repository, served), map[], 5) == 5
    ensures Outcome(After(Repository, served), map[], 5) == FetchResult(map[], Some(NoArguments))
    ensures Waits(Trace(Attempts(After(Repository, served), map[], 5), map[], wait)) == 4
  {
    AlwaysFailingExhausts(After(Repository, served), map[], 5);
    TraceCounts(5, map[], wait);
  }

  /** Retrier{5, _, Repository}.Fetch(Args{"id": "1"}) succeeds on the first call without sleeping. */
  lemma RepositoryWithIdScenario(served: nat, wait: Duration)
    ensures Attempts(After(Repository, served), map["id" := "1"], 5) == 1
    ensures Outcome(After(Repository, served), map["id" := "1"], 5) == FetchResult(Credentials, None)
    ensures Trace(Attempts(After(Repository, served), map["id" := "1"], 5), map["id" := "1"], wait)
      == [Attempt(1, map["id" := "1"])]
  {
    assert |map["id" := "1"]| == 1;
    SucceedsOnAttempt(After(Repository, served), map["id" := "1"], 5, 1);
  }

  /**
    A stateful fetcher keeps its state across fetches: one that fails its
    first three calls makes a retrier with two attempts fail once, having
    used calls 1 and 2, and then succeed on call 4.
  */
  method ConsecutiveFetches() returns (first: Option<string>, second: Option<string>, data: Data)
    ensures first == Some("down") && second.None? && data == map["k" := "v"]
  {
    var f: Fetcher := (a: Args, n: nat) =>
      if n <= 3 then FetchResult(map[], Some("down")) else FetchResult(map["k" := "v"], None);
    var r := new Retrier(2, 1, f);
    var d;
    ghost var events;
    d, first, events := r.Fetch(map["id" := "1"]);
    AlwaysFailingExhausts(After(f, 0), map["id" := "1"], 2);
    assert r.calls == 2;
    data, second, events := r.Fetch(map["id" := "1"]);
    SucceedsOnAttempt(After(f, 2), map["id" := "1"], 2, 2);
  }
}
