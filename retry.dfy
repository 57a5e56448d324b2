/**
 * The retry state machine of `GmailCollector.start_mail_collection`
 * (mail_collector/gmail_collector.py), as a specification.  The
 * materialiser is an oracle: the outcome of the `t`-th attempt of the run.
 * `MessageTally` is what one message adds to the two logs; `RunTally` is
 * what a whole run adds, message after message.
 */
module Retry {
  import opened Wrappers

  /** One call of `read_message`: it returned, or it raised an exception with the given text. */
  datatype Outcome = Materialized | Raised(error: string)

  /**
   * What part of a run adds: the completed-log lines, the error-log lines,
   * and the id of every attempt, in order.
   */
  datatype Tally = Tally(completed: seq<string>, errors: seq<string>, attempted: seq<string>)

  const NoTally := Tally([], [], [])

  function Then(a: Tally, b: Tally): Tally
  {
    Tally(a.completed + b.completed, a.errors + b.errors, a.attempted + b.attempted)
  }

  lemma ThenAssociative(a: Tally, b: Tally, c: Tally)
    ensures Then(Then(a, b), c) == Then(a, Then(b, c))
  {
  }

  lemma ThenNoTally(a: Tally)
    ensures Then(a, NoTally) == a
  {
    assert a.completed + [] == a.completed && a.errors + [] == a.errors && a.attempted + [] == a.attempted;
  }

  lemma NoTallyThen(a: Tally)
    ensures Then(NoTally, a) == a
  {
    assert [] + a.completed == a.completed && [] + a.errors == a.errors && [] + a.attempted == a.attempted;
  }

  /** The completed-log line of a message. */
  function CompletedLine(id: string): string
  {
    id + "\n"
  }

  /** The error-log line of a failed attempt. */
  function ErrorLine(id: string, error: string): string
  {
    id + "|" + error + "\n"
  }

  /**
   * The `while retries < max_retries` loop for one message, from attempt
   * `t` with `retries` failures behind it: a success logs the id and ends
   * the loop, a failure logs an error line and counts one more retry.
   */
  function MessageTally(id: string, maxRetries: int, oracle: nat -> Outcome, t: nat, retries: nat): (m: Tally)
    ensures m.completed == [] || m.completed == [CompletedLine(id)]
    ensures |m.attempted| == |m.completed| + |m.errors|
    decreases maxRetries - retries
  {
    if retries >= maxRetries then NoTally
    else match oracle(t)
      case Materialized => Tally([CompletedLine(id)], [], [id])
      case Raised(e) => Then(Tally([], [ErrorLine(id, e)], [id]), MessageTally(id, maxRetries, oracle, t + 1, retries + 1))
  }

  /**
   * The retry loop's progress: `done` followed by what the attempts from
   * `t` with `retries` failures behind them add is the whole message's tally.
   */
  predicate Progress(id: string, maxRetries: int, oracle: nat -> Outcome, t: nat, retries: nat, done: Tally, goal: Tally)
  {
    Then(done, MessageTally(id, maxRetries, oracle, t, retries)) == goal
  }

  /** A success within the budget completes the message's tally. */
  lemma ProgressSuccess(id: string, maxRetries: int, oracle: nat -> Outcome, t: nat, retries: nat, done: Tally, goal: Tally)
    requires Progress(id, maxRetries, oracle, t, retries, done, goal)
    requires retries < maxRetries && oracle(t).Materialized?
    ensures Then(done, Tally([CompletedLine(id)], [], [id])) == goal
  {
  }

  /** A failure within the budget moves on to the next attempt with one more retry counted. */
  lemma ProgressFailure(id: string, maxRetries: int, oracle: nat -> Outcome, t: nat, retries: nat, done: Tally, goal: Tally)
    requires Progress(id, maxRetries, oracle, t, retries, done, goal)
    requires retries < maxRetries && oracle(t).Raised?
    ensures Progress(id, maxRetries, oracle, t + 1, retries + 1,
                     Then(done, Tally([], [ErrorLine(id, oracle(t).error)], [id])), goal)
  {
    ThenAssociative(done, Tally([], [ErrorLine(id, oracle(t).error)], [id]),
                    MessageTally(id, maxRetries, oracle, t + 1, retries + 1));
  }

  /** An exhausted budget leaves nothing more to add. */
  lemma ProgressExhausted(id: string, maxRetries: int, oracle: nat -> Outcome, t: nat, retries: nat, done: Tally, goal: Tally)
    requires Progress(id, maxRetries, oracle, t, retries, done, goal)
    requires retries >= maxRetries
    ensures done == goal
  {
    ThenNoTally(done);
  }

  /** A run with an arbitrary tally `step(id, t)` per message in place of the retry loop. */
  function RunWith(step: (string, nat) -> Tally, ids: seq<string>, t: nat): Tally
    decreases |ids|
  {
    if ids == [] then NoTally
    else
      var m := step(ids[0], t);
      Then(m, RunWith(step, ids[1..], t + |m.attempted|))
  }

  /** The retry loop of one message as a step function. */
  function MessageStep(maxRetries: int, oracle: nat -> Outcome): (string, nat) -> Tally
  {
    (id: string, t: nat) => MessageTally(id, maxRetries, oracle, t, 0)
  }

  /**
   * The messages `ids` in order from the run's attempt `t`: each message's
   * retry loop starts at the attempt after the previous message's last.
   */
  function RunFrom(ids: seq<string>, maxRetries: int, oracle: nat -> Outcome, t: nat): Tally
  {
    RunWith(MessageStep(maxRetries, oracle), ids, t)
  }

  /** A whole run over the listed messages, from its first attempt. */
  function RunTally(ids: seq<string>, maxRetries: int, oracle: nat -> Outcome): (T: Tally)
    ensures |T.completed| <= |ids| && |T.attempted| == |T.completed| + |T.errors|
  {
    RunLogSizes(ids, maxRetries, oracle, 0);
    RunFrom(ids, maxRetries, oracle, 0)
  }

  /** The outcome of attempt `t + r`: the `r`-th attempt counted from attempt `t`. */
  function At(oracle: nat -> Outcome, t: nat, r: nat): Outcome
  {
    oracle(t + r)
  }

  lemma ThenLengths(a: Tally, b: Tally)
    ensures |Then(a, b).attempted| == |a.attempted| + |b.attempted|
    ensures |Then(a, b).errors| == |a.errors| + |b.errors|
  {
  }

  /** One step of a run: the first message's tally, then the rest from the attempt after its last. */
  lemma RunFromCons(ids: seq<string>, id: string, maxRetries: int, oracle: nat -> Outcome, t: nat)
    requires ids != [] && ids[0] == id
    ensures var m := MessageTally(id, maxRetries, oracle, t, 0);
      RunFrom(ids, maxRetries, oracle, t) == Then(m, RunFrom(ids[1..], maxRetries, oracle, t + |m.attempted|))
  {
  }

  lemma AppendTail<T>(ab: seq<T>, a: seq<T>, b: seq<T>)
    requires ab == a + b && a != []
    ensures ab[0] == a[0] && ab[1..] == a[1..] + b
  {
  }

  /** Whatever the step, a run over `ab == a + b` is the run over `a` followed by the run over `b` from the attempt after `a`'s last. */
  lemma {:induction false} RunWithAppend(step: (string, nat) -> Tally, ab: seq<string>, a: seq<string>, b: seq<string>, t: nat)
    requires ab == a + b
    ensures var A := RunWith(step, a, t);
      RunWith(step, ab, t) == Then(A, RunWith(step, b, t + |A.attempted|))
    decreases |a|
  {
    if a == [] {
      assert ab == b;
      NoTallyThen(RunWith(step, b, t));
    } else {
      var m := step(a[0], t);
      var u := t + |m.attempted|;
      AppendTail(ab, a, b);
      var A' := RunWith(step, a[1..], u);
      var B := RunWith(step, b, u + |A'.attempted|);
      RunWithAppend(step, ab[1..], a[1..], b, u);
      ThenLengths(m, A');
      ThenAssociative(m, A', B);
    }
  }

  /** A run over `ab == a + b` is the run over `a` followed by the run over `b` from the attempt after `a`'s last. */
  lemma RunFromAppend(ab: seq<string>, a: seq<string>, b: seq<string>, maxRetries: int, oracle: nat -> Outcome, t: nat)
    requires ab == a + b
    ensures var A := RunFrom(a, maxRetries, oracle, t);
      RunFrom(ab, maxRetries, oracle, t) == Then(A, RunFrom(b, maxRetries, oracle, t + |A.attempted|))
  {
    RunWithAppend(MessageStep(maxRetries, oracle), ab, a, b, t);
  }

  /**
   * The run over the first `j + 1` messages is the run over the first `j`
   * followed by message `j`'s retry loop from the attempt after the last so far.
   */
  lemma RunFromSnoc(ids: seq<string>, j: nat, maxRetries: int, oracle: nat -> Outcome, t: nat)
    requires j < |ids|
    ensures var P := RunFrom(ids[..j], maxRetries, oracle, t);
      var m := MessageTally(ids[j], maxRetries, oracle, t + |P.attempted|, 0);
      && RunFrom(ids[..j + 1], maxRetries, oracle, t) == Then(P, m)
      && |Then(P, m).attempted| == |P.attempted| + |m.attempted|
      && |Then(P, m).errors| == |P.errors| + |m.errors|
  {
    var P := RunFrom(ids[..j], maxRetries, oracle, t);
    var u := t + |P.attempted|;
    var m := MessageTally(ids[j], maxRetries, oracle, u, 0);
    assert ids[..j + 1] == ids[..j] + [ids[j]];
    RunFromAppend(ids[..j + 1], ids[..j], [ids[j]], maxRetries, oracle, t);
    RunFromCons([ids[j]], ids[j], maxRetries, oracle, u);
    assert [ids[j]][1..] == [];
    ThenNoTally(m);
    ThenLengths(P, m);
  }

  /** How many attempts each message of a run from attempt `t` gets. */
  function AttemptCounts(ids: seq<string>, maxRetries: int, oracle: nat -> Outcome, t: nat): seq<nat>
    decreases |ids|
  {
    if ids == [] then []
    else
      var k := |MessageTally(ids[0], maxRetries, oracle, t, 0).attempted|;
      [k] + AttemptCounts(ids[1..], maxRetries, oracle, t + k)
  }

  /** Each id repeated as many times as its count, in order. */
  function Expand(ids: seq<string>, counts: seq<nat>): seq<string>
    requires |ids| == |counts|
  {
    if ids == [] then [] else Repeat(ids[0], counts[0]) + Expand(ids[1..], counts[1..])
  }

  /**
   * What one message adds: a block of attempts on its id, at most
   * `max_retries` of them and at least one when `max_retries` is positive;
   * an error line for each failed attempt, carrying that attempt's error;
   * and a single completed line exactly when an attempt within the budget
   * succeeded, which is then the last attempt.
   */
  lemma {:induction false} MessageTallyShape(id: string, maxRetries: int, oracle: nat -> Outcome, t: nat, retries: nat)
    ensures var m := MessageTally(id, maxRetries, oracle, t, retries); var f := |m.errors|;
      && m.attempted == Repeat(id, |m.attempted|)
      && (retries < maxRetries ==> 1 <= |m.attempted|)
      && |m.attempted| <= (if retries < maxRetries then maxRetries - retries else 0)
      && (forall r :: 0 <= r < f ==> At(oracle, t, r).Raised? && m.errors[r] == ErrorLine(id, At(oracle, t, r).error))
      && (m.completed == [] || m.completed == [CompletedLine(id)])
      && |m.attempted| == f + |m.completed|
      && (m.completed != [] <==> retries + f < maxRetries && oracle(t + f).Materialized?)
      && (m.completed == [] ==> |m.attempted| == (if retries < maxRetries then maxRetries - retries else 0))
    decreases maxRetries - retries
  {
    if retries < maxRetries && oracle(t).Raised? {
      MessageTallyShape(id, maxRetries, oracle, t + 1, retries + 1);
      var rest := MessageTally(id, maxRetries, oracle, t + 1, retries + 1);
      var m := MessageTally(id, maxRetries, oracle, t, retries);
      assert m.errors == [ErrorLine(id, oracle(t).error)] + rest.errors;
      assert m.attempted == [id] + rest.attempted;
      assert m.attempted == Repeat(id, |m.attempted|);
      forall r | 0 <= r < |m.errors|
        ensures At(oracle, t, r).Raised? && m.errors[r] == ErrorLine(id, At(oracle, t, r).error)
      {
        if r > 0 {
          assert m.errors[r] == rest.errors[r - 1];
          assert At(oracle, t + 1, r - 1) == At(oracle, t, r);
        }
      }
      assert t + |m.errors| == t + 1 + |rest.errors|;
      assert retries + |m.errors| == retries + 1 + |rest.errors|;
      assert m.completed == rest.completed;
      assert m.completed != [] <==> retries + |m.errors| < maxRetries && oracle(t + |m.errors|).Materialized?;
      assert m.completed == [] ==> |m.attempted| == maxRetries - retries;
    }
  }

  /** The attempts of one message form a block of its id, between one and `max_retries` long when `max_retries` is positive. */
  lemma MessageTallyBlock(id: string, maxRetries: int, oracle: nat -> Outcome, t: nat)
    ensures var m := MessageTally(id, maxRetries, oracle, t, 0);
      && m.attempted == Repeat(id, |m.attempted|)
      && (maxRetries > 0 ==> 1 <= |m.attempted| <= maxRetries)
  {
    MessageTallyShape(id, maxRetries, oracle, t, 0);
  }

  /** A materialiser that fails `max_retries = k` times in a row: k error lines, no completed line. */
  lemma AlwaysFailing(id: string, k: nat, oracle: nat -> Outcome, t: nat)
    requires forall s :: t <= s < t + k ==> oracle(s).Raised?
    ensures var m := MessageTally(id, k, oracle, t, 0);
      && |m.errors| == k && m.completed == [] && m.attempted == Repeat(id, k)
      && forall r :: 0 <= r < k ==> m.errors[r] == ErrorLine(id, oracle(t + r).error)
  {
    MessageTallyShape(id, k, oracle, t, 0);
    var m := MessageTally(id, k, oracle, t, 0);
    var s: nat := t + |m.errors|;
    assert |m.errors| < k ==> oracle(s).Raised?;
  }

  /** A materialiser that fails `j < k` times and then succeeds: j error lines, then one completed line, and no further attempt. */
  lemma FailThenSucceed(id: string, k: int, j: nat, oracle: nat -> Outcome, t: nat)
    requires j < k
    requires forall s :: t <= s < t + j ==> oracle(s).Raised?
    requires oracle(t + j).Materialized?
    ensures var m := MessageTally(id, k, oracle, t, 0);
      && |m.errors| == j && m.completed == [CompletedLine(id)] && m.attempted == Repeat(id, j + 1)
      && forall r :: 0 <= r < j ==> m.errors[r] == ErrorLine(id, oracle(t + r).error)
  {
    MessageTallyShape(id, k, oracle, t, 0);
    var m := MessageTally(id, k, oracle, t, 0);
    var s: nat := t + |m.errors|;
    assert |m.errors| > j ==> At(oracle, t, j).Raised?;
    assert |m.errors| < j ==> oracle(s).Raised?;
  }

  /** With `max_retries <= 0` nothing is attempted and nothing logged. */
  lemma {:induction false} NoBudgetNoAttempt(ids: seq<string>, maxRetries: int, oracle: nat -> Outcome, t: nat)
    requires maxRetries <= 0
    ensures RunFrom(ids, maxRetries, oracle, t) == NoTally
    decreases |ids|
  {
    if ids != [] {
      NoBudgetNoAttempt(ids[1..], maxRetries, oracle, t);
    }
  }

  /**
   * A run attempts the messages strictly in order, each a block of
   * consecutive attempts; with a positive `max_retries` every message gets
   * between one and `max_retries` attempts, so every message is visited.
   */
  lemma {:induction false} RunVisitsInOrder(ids: seq<string>, maxRetries: int, oracle: nat -> Outcome, t: nat)
    ensures var counts := AttemptCounts(ids, maxRetries, oracle, t);
      && |counts| == |ids|
      && RunFrom(ids, maxRetries, oracle, t).attempted == Expand(ids, counts)
      && (maxRetries > 0 ==> forall i :: 0 <= i < |ids| ==> 1 <= counts[i] <= maxRetries)
    decreases |ids|
  {
    if ids != [] {
      var m := MessageTally(ids[0], maxRetries, oracle, t, 0);
      var k := |m.attempted|;
      MessageTallyBlock(ids[0], maxRetries, oracle, t);
      RunVisitsInOrder(ids[1..], maxRetries, oracle, t + k);
      RunFromCons(ids, ids[0], maxRetries, oracle, t);
      var rest := AttemptCounts(ids[1..], maxRetries, oracle, t + k);
      var counts := AttemptCounts(ids, maxRetries, oracle, t);
      assert counts == [k] + rest;
      assert counts[1..] == rest;
      assert Expand(ids, counts) == Repeat(ids[0], k) + Expand(ids[1..], rest);
      forall i | 0 <= i < |ids| && maxRetries > 0 ensures 1 <= counts[i] <= maxRetries {
        if i > 0 {
          assert counts[i] == rest[i - 1];
        }
      }
    }
  }

  /** A run's logs hold at most one completed line per message, and every attempt is either completed or logged as an error. */
  lemma {:induction false} RunLogSizes(ids: seq<string>, maxRetries: int, oracle: nat -> Outcome, t: nat)
    ensures var T := RunFrom(ids, maxRetries, oracle, t);
      && |T.completed| <= |ids|
      && |T.attempted| == |T.completed| + |T.errors|
    decreases |ids|
  {
    if ids != [] {
      var m := MessageTally(ids[0], maxRetries, oracle, t, 0);
      MessageTallyShape(ids[0], maxRetries, oracle, t, 0);
      RunLogSizes(ids[1..], maxRetries, oracle, t + |m.attempted|);
    }
  }

  /**
   * Two messages with `max_retries = 3`: `m1` is materialised at once; `m2`
   * fails once and then is materialised.  Both are completed, `m2` once
   * logged as an error, in that order.
   */
  lemma TwoMessageRun(e: string, oracle: nat -> Outcome)
    requires oracle(0) == Materialized && oracle(1) == Raised(e) && oracle(2) == Materialized
    ensures var T := RunTally(["m1", "m2"], 3, oracle);
      && T.completed == [CompletedLine("m1"), CompletedLine("m2")]
      && T.errors == [ErrorLine("m2", e)]
      && T.attempted == ["m1", "m2", "m2"]
  {
    var ids := ["m1", "m2"];
    var m1 := MessageTally("m1", 3, oracle, 0, 0);
    var m2 := MessageTally("m2", 3, oracle, 1, 0);
    assert m1 == Tally([CompletedLine("m1")], [], ["m1"]);
    assert MessageTally("m2", 3, oracle, 2, 1) == Tally([CompletedLine("m2")], [], ["m2"]);
    assert m2 == Tally([CompletedLine("m2")], [ErrorLine("m2", e)], ["m2", "m2"]);
    assert ids[1..] == ["m2"] && ["m2"][1..] == [];
    RunFromCons(ids, "m1", 3, oracle, 0);
    RunFromCons(["m2"], "m2", 3, oracle, 1);
    ThenNoTally(m2);
    assert RunTally(ids, 3, oracle) == Then(m1, m2);
  }
}
