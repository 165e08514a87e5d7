/** The retry policy every stage uses (`pRetry(fn, { retries: n, onFailedAttempt })`):
    attempt 1, 2, ... of `run` until one returns a value, one throws an
    `AbortError`, or `retries + 1` attempts have failed. Each ordinary failure is
    handed to `onFailedAttempt` (here: its attempt number is logged) before the
    decision to retry, the last one included. When the budget is exhausted
    p-retry throws the operation's `mainError()`: the most frequent of the
    failure messages, the latest to reach that frequency on a tie. */
module PRetry {
  import opened Common

  /** What the caller of a retried operation sees for the attempt that ended it. */
  function Settle<T>(a: Attempt<T>): (r: Result<T>)
    ensures r.Success? <==> a.Ok?
  {
    match a
    case Ok(v) => Success(v)
    case Fail(e) => Failure(e)
    case Abort(e) => Failure(e)
  }

  /** The message of a failed attempt. */
  function ReasonOf<T>(a: Attempt<T>): string
  {
    match a
    case Ok(_) => ""
    case Fail(e) => e
    case Abort(e) => e
  }

  /** The messages of attempts `1..n`, in order. */
  function Reasons<T>(run: nat -> Attempt<T>, n: nat): (r: seq<string>)
    ensures |r| == n
    ensures forall i :: 0 <= i < n ==> r[i] == ReasonOf(run(i + 1))
  {
    seq(n, i requires 0 <= i < n => ReasonOf(run(i + 1)))
  }

  lemma ReasonsSnoc<T>(run: nat -> Attempt<T>, n: nat)
    ensures Reasons(run, n + 1) == Reasons(run, n) + [ReasonOf(run(n + 1))]
  {
    assert forall i :: 0 <= i < n ==> Reasons(run, n + 1)[i] == Reasons(run, n)[i];
  }

  // ---------------------------------------------------------------------------
  // `RetryOperation.mainError()`

  /** How many times `e` occurs in `errors`. */
  function Count(errors: seq<string>, e: string): nat
  {
    multiset(errors)[e]
  }

  /** The largest number of times any one message occurs. */
  function MaxCount(errors: seq<string>): nat
    decreases |errors|
  {
    if |errors| == 0 then 0
    else
      var c := Count(errors, errors[|errors| - 1]);
      var m := MaxCount(errors[..|errors| - 1]);
      if c >= m then c else m
  }

  /** The error `mainError()` picks: the last message wins when its count
      reaches the largest count of the messages before it. */
  function MostFrequent(errors: seq<string>): string
    requires |errors| > 0
    decreases |errors|
  {
    var last := errors[|errors| - 1];
    if |errors| == 1 || Count(errors, last) >= MaxCount(errors[..|errors| - 1]) then last
    else MostFrequent(errors[..|errors| - 1])
  }

  lemma CountSnoc(errors: seq<string>, e: string, x: string)
    ensures Count(errors + [e], x) == Count(errors, x) + (if x == e then 1 else 0)
  {
    assert multiset(errors + [e]) == multiset(errors) + multiset{e};
  }

  /** No message occurs more often than `MaxCount`. */
  lemma {:induction false} MaxCountBounds(errors: seq<string>, e: string)
    ensures Count(errors, e) <= MaxCount(errors)
    decreases |errors|
  {
    if |errors| > 0 {
      var init := errors[..|errors| - 1];
      assert errors == init + [errors[|errors| - 1]];
      CountSnoc(init, errors[|errors| - 1], e);
      MaxCountBounds(init, e);
    }
  }

  /** `mainError()` returns one of the messages, and one that no other message
      outnumbers. */
  lemma {:induction false} MostFrequentIsMost(errors: seq<string>)
    requires |errors| > 0
    ensures MostFrequent(errors) in errors
    ensures Count(errors, MostFrequent(errors)) == MaxCount(errors)
    ensures forall e :: Count(errors, e) <= Count(errors, MostFrequent(errors))
    decreases |errors|
  {
    var n := |errors|;
    var init := errors[..n - 1];
    var last := errors[n - 1];
    assert errors == init + [last];
    forall e ensures Count(errors, e) <= MaxCount(errors) {
      MaxCountBounds(errors, e);
    }
    if n > 1 && Count(errors, last) < MaxCount(init) {
      MostFrequentIsMost(init);
      CountSnoc(init, last, MostFrequent(init));
      assert MostFrequent(init) in errors;
    } else if n == 1 {
      assert MaxCount(init) == 0;
    }
  }

  /** When every attempt fails with the same message, that message is the one
      thrown. */
  lemma {:induction false} MostFrequentUniform(errors: seq<string>, e: string)
    requires |errors| > 0 && forall i :: 0 <= i < |errors| ==> errors[i] == e
    ensures MostFrequent(errors) == e
  {
    MostFrequentIsMost(errors);
    assert MostFrequent(errors) in errors;
  }

  /** On a tie the later message wins: the last failure is thrown whenever no
      message occurs more often than its own. */
  lemma MostFrequentLatest(errors: seq<string>)
    requires |errors| > 0 && Count(errors, errors[|errors| - 1]) == MaxCount(errors)
    ensures MostFrequent(errors) == errors[|errors| - 1]
  {
  }

  /** Three ordinary failures `A`, `A`, `B` throw `A`, not the last error;
      `A`, `B` throw `B`; `A`, `B`, `B`, `A` throw `A`. */
  lemma MostFrequentExamples()
    ensures MostFrequent(["A", "A", "B"]) == "A"
    ensures MostFrequent(["A", "B"]) == "B"
    ensures MostFrequent(["A", "B", "B", "A"]) == "A"
  {
    var a, aa, ab, aab, abb, abba := ["A"], ["A", "A"], ["A", "B"], ["A", "A", "B"], ["A", "B", "B"], ["A", "B", "B", "A"];
    assert a[..0] == [] && MaxCount(a) == 1;
    assert aa[..1] == a && multiset(aa) == multiset{"A", "A"} && MaxCount(aa) == 2;
    assert ab[..1] == a && multiset(ab) == multiset{"A", "B"} && Count(ab, "B") == 1 && MaxCount(ab) == 1;
    assert aab[..2] == aa && multiset(aab) == multiset{"A", "A", "B"} && Count(aab, "B") == 1;
    assert abb[..2] == ab && multiset(abb) == multiset{"A", "B", "B"} && Count(abb, "B") == 2 && MaxCount(abb) == 2;
    assert abba[..3] == abb && multiset(abba) == multiset{"A", "B", "B", "A"} && Count(abba, "A") == 2;
  }

  /** `RetryOperation.prototype.mainError`: counts every message in turn and
      keeps the error whose count reaches the running maximum; null when no
      attempt failed. */
  method MainError(errors: seq<string>) returns (main: Option<string>)
    ensures |errors| == 0 <==> main.None?
    ensures |errors| > 0 ==> main == Some(MostFrequent(errors))
  {
    var counts: map<string, nat> := map[];
    main := None;
    var mainCount := 0;
    var i := 0;
    while i < |errors|
      invariant i <= |errors|
      invariant forall e {:trigger Count(errors[..i], e)} :: Count(errors[..i], e) == if e in counts then counts[e] else 0
      invariant mainCount == MaxCount(errors[..i])
      invariant i == 0 <==> main.None?
      invariant i > 0 ==> main == Some(MostFrequent(errors[..i]))
    {
      var message := errors[i];
      var count := (if message in counts then counts[message] else 0) + 1;
      counts := counts[message := count];
      assert errors[..i + 1] == errors[..i] + [message];
      MainStep(errors[..i], message);
      if count >= mainCount {
        main := Some(message);
        mainCount := count;
      }
      i := i + 1;
    }
    assert errors[..i] == errors;
  }

  /** One more message: its count goes up by one, the maximum and the main
      error follow it when that count reaches the old maximum. */
  lemma MainStep(prefix: seq<string>, message: string)
    ensures forall e {:trigger Count(prefix + [message], e)} ::
              Count(prefix + [message], e) == Count(prefix, e) + (if e == message then 1 else 0)
    ensures var c := Count(prefix, message) + 1;
            MaxCount(prefix + [message]) == (if c >= MaxCount(prefix) then c else MaxCount(prefix))
    ensures var c := Count(prefix, message) + 1;
            MostFrequent(prefix + [message])
            == if |prefix| == 0 || c >= MaxCount(prefix) then message else MostFrequent(prefix)
  {
    var next := prefix + [message];
    assert next[..|prefix|] == prefix;
    forall e ensures Count(next, e) == Count(prefix, e) + (if e == message then 1 else 0) {
      CountSnoc(prefix, message, e);
    }
  }

  /** The attempt numbers `lo, lo + 1, ..., hi - 1`. */
  function Range(lo: nat, hi: nat): (r: seq<nat>)
    ensures |r| == if lo <= hi then hi - lo else 0
    ensures forall i :: 0 <= i < |r| ==> r[i] == lo + i
    decreases hi - lo
  {
    if lo >= hi then [] else [lo] + Range(lo + 1, hi)
  }

  /** What p-retry guarantees once `Retry(run, retries)` has settled on attempt
      number `attempts` with result `res`: every earlier attempt failed with an
      ordinary error; the settling attempt succeeded, aborted, or was the last
      one the budget allows; and `failures` lists the attempt numbers handed
      to `onFailedAttempt`. */
  ghost predicate Settles<T>(run: nat -> Attempt<T>, retries: nat, res: Result<T>, attempts: nat, failures: seq<nat>)
  {
    && 1 <= attempts <= retries + 1
    && (forall j :: 1 <= j < attempts ==> run(j).Fail?)
    && (run(attempts).Fail? ==> attempts == retries + 1)
    && res == Settled(run, attempts)
    && failures == Range(1, attempts) + (if run(attempts).Fail? then [attempts] else [])
  }

  /** The number of the attempt that settles the operation when attempts from
      `k` on are still to run. */
  function SettleFrom<T>(run: nat -> Attempt<T>, retries: nat, k: nat): (r: nat)
    requires 1 <= k <= retries + 1
    ensures k <= r <= retries + 1
    decreases retries + 1 - k
  {
    if !run(k).Fail? || k == retries + 1 then k else SettleFrom(run, retries, k + 1)
  }

  /** The attempt that settles `run` under `retries` retries. */
  function SettlingAttempt<T>(run: nat -> Attempt<T>, retries: nat): nat
  {
    SettleFrom(run, retries, 1)
  }

  /** What the retried operation returns or throws once attempt `attempts`
      settled it: the value, the `AbortError`'s reason, or, when that attempt
      failed ordinarily too, `mainError()` of all the failures. */
  function Settled<T>(run: nat -> Attempt<T>, attempts: nat): Result<T>
  {
    if run(attempts).Fail? && attempts > 0 then Failure(MostFrequent(Reasons(run, attempts)))
    else Settle(run(attempts))
  }

  /** What the retried operation returns or throws. */
  function Outcome<T>(run: nat -> Attempt<T>, retries: nat): Result<T>
  {
    Settled(run, SettlingAttempt(run, retries))
  }

  /** A settlement is the one `Outcome` describes. */
  lemma SettlesOutcome<T>(run: nat -> Attempt<T>, retries: nat, res: Result<T>, attempts: nat, failures: seq<nat>)
    requires Settles(run, retries, res, attempts, failures)
    ensures attempts == SettlingAttempt(run, retries)
    ensures res == Outcome(run, retries)
  {
    SettleFromReaches(run, retries, 1, res, attempts, failures);
  }

  lemma {:induction false} SettleFromReaches<T>(run: nat -> Attempt<T>, retries: nat, k: nat,
                                                res: Result<T>, attempts: nat, failures: seq<nat>)
    requires Settles(run, retries, res, attempts, failures)
    requires 1 <= k <= attempts
    ensures SettleFrom(run, retries, k) == attempts
    decreases attempts - k
  {
    if k < attempts {
      assert run(k).Fail?;
      SettleFromReaches(run, retries, k + 1, res, attempts, failures);
    }
  }

  /** Runs attempts `1, 2, ...` of `run`. `attempts` is the number of the attempt
      that settled the operation, `failures` the attempt numbers reported to
      `onFailedAttempt`. */
  method Retry<T>(run: nat -> Attempt<T>, retries: nat)
    returns (res: Result<T>, attempts: nat, failures: seq<nat>)
    ensures Settles(run, retries, res, attempts, failures)
    ensures res == Outcome(run, retries) && attempts == SettlingAttempt(run, retries)
  {
    attempts := 0;
    failures := [];
    var errors := [];
    res := Failure("");
    var settled := false;
    while !settled
      invariant attempts <= retries + 1
      invariant !settled ==> attempts <= retries
      invariant forall j :: 1 <= j <= attempts && (j < attempts || !settled) ==> run(j).Fail?
      invariant !settled ==> errors == Reasons(run, attempts)
      invariant settled ==> 1 <= attempts && res == Settled(run, attempts)
      invariant settled ==> (run(attempts).Fail? ==> attempts == retries + 1)
      invariant !settled ==> failures == Range(1, attempts + 1)
      invariant settled ==> failures == Range(1, attempts) + (if run(attempts).Fail? then [attempts] else [])
      decreases retries + 1 - attempts
    {
      attempts := attempts + 1;
      var outcome := run(attempts);
      match outcome {
        case Ok(v) =>
          res := Success(v);
          settled := true;
          assert failures == Range(1, attempts) + [];
        case Abort(e) =>
          res := Failure(e);
          settled := true;
          assert failures == Range(1, attempts) + [];
        case Fail(e) =>
          assert Range(1, attempts + 1) == Range(1, attempts) + [attempts];
          failures := failures + [attempts];
          ReasonsSnoc(run, attempts - 1);
          errors := errors + [e];
          if attempts > retries {
            var main := MainError(errors);
            res := Failure(main.value);
            settled := true;
          }
      }
    }
    SettlesOutcome(run, retries, res, attempts, failures);
  }

  /** The outcome is fixed by `run` and the budget: two settlements of the same
      operation agree on everything. */
  lemma SettlesUnique<T>(run: nat -> Attempt<T>, retries: nat,
                         res1: Result<T>, attempts1: nat, failures1: seq<nat>,
                         res2: Result<T>, attempts2: nat, failures2: seq<nat>)
    requires Settles(run, retries, res1, attempts1, failures1)
    requires Settles(run, retries, res2, attempts2, failures2)
    ensures attempts1 == attempts2 && res1 == res2 && failures1 == failures2
  {
  }

  /** The first attempt that does not fail with an ordinary error settles the
      operation, if it is within the budget: a value is returned, an
      `AbortError` ends the retries at once however much budget is left. */
  lemma FirstNonFailureSettles<T>(run: nat -> Attempt<T>, retries: nat, k: nat,
                                  res: Result<T>, attempts: nat, failures: seq<nat>)
    requires 1 <= k <= retries + 1 && !run(k).Fail?
    requires forall j :: 1 <= j < k ==> run(j).Fail?
    requires Settles(run, retries, res, attempts, failures)
    ensures attempts == k
    ensures run(k).Ok? ==> res == Success(run(k).value)
    ensures run(k).Abort? ==> res == Failure(run(k).reason)
    ensures failures == Range(1, k)
  {
    assert failures == Range(1, attempts) + [];
  }

  /** When every attempt fails with an ordinary error, all `retries + 1`
      attempts run, each failure is reported, and the most frequent of their
      messages is thrown. */
  lemma BudgetExhausted<T>(run: nat -> Attempt<T>, retries: nat,
                           res: Result<T>, attempts: nat, failures: seq<nat>)
    requires forall j :: 1 <= j <= retries + 1 ==> run(j).Fail?
    requires Settles(run, retries, res, attempts, failures)
    ensures attempts == retries + 1
    ensures res == Failure(MostFrequent(Reasons(run, retries + 1)))
    ensures failures == Range(1, retries + 2)
  {
    assert Range(1, attempts + 1) == Range(1, attempts) + [attempts] by {
      RangeSnoc(1, attempts);
    }
  }

  lemma RangeSnoc(lo: nat, hi: nat)
    requires lo <= hi
    ensures Range(lo, hi + 1) == Range(lo, hi) + [hi]
  {
  }
}
