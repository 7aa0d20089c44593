/** The loop shape shared by `CodeAgent._process_message` and
    `JupyterCodeAgent.answer_question`: `for _ in range(max_iter)`, each
    pass appending messages, an exception re-raised as
    `ValueError("Error processing message: ...")`, and an early exit once
    an iteration finds a final answer. The iteration itself is a
    parameter. */
module AgentLoop {
  import opened Wrappers
  import opened Protocol

  type Pass<R> = (seq<Message>, nat) -> Iteration<R>

  /** The loop from iteration `k` on, over history `h`, where `last` is the
      response of the previous iteration. */
  function Run<R>(step: Pass<R>, h: seq<Message>, k: nat, n: int, last: Option<R>): (r: Outcome<R>)
    decreases n - k
  {
    if n <= k then Returned(h, last)
    else
      match step(h, k)
      case Raised(added, e) => Failed(h + added, Wrapped(e))
      case Continue(added, response) => Run(step, h + added, k + 1, n, Some(response))
      case Done(added, response) => Returned(h + added, Some(response))
  }

  /** How many iterations a run from `k` performs. */
  function Passes<R>(step: Pass<R>, h: seq<Message>, k: nat, n: int): (p: nat)
    ensures k < n ==> 1 <= p <= n - k
    ensures n <= k ==> p == 0
    decreases n - k
  {
    if n <= k then 0
    else
      match step(h, k)
      case Continue(added, _) => 1 + Passes(step, h + added, k + 1, n)
      case _ => 1
  }

  /** An iteration that fails appends at most the assistant message. */
  predicate RaisesCleanly<R>(it: Iteration<R>) {
    it.Raised? ==> |it.added| <= 1 && (|it.added| == 1 ==> it.added[0].role == Assistant)
  }

  /** An iteration that goes on appends the assistant message, then the
      system one. */
  predicate ContinuesWithPair<R>(it: Iteration<R>) {
    it.Continue? ==> |it.added| == 2 && it.added[0].role == Assistant && it.added[1].role == System
  }

  /** The role expected `t` messages after the start of the loop. */
  function RoleAt(t: nat): Role {
    if t % 2 == 0 then Assistant else System
  }

  // ---------------------------------------------------------------------
  // Lemmas

  /** One pass of the loop, as the methods take it. */
  lemma RunUnfold<R>(step: Pass<R>, it: Iteration<R>, h: seq<Message>, k: nat, n: int, last: Option<R>)
    requires k < n && step(h, k) == it
    ensures it.Raised? ==> Run(step, h, k, n, last) == Failed(h + it.added, Wrapped(it.raised))
    ensures it.Done? ==> Run(step, h, k, n, last) == Returned(h + it.added, Some(it.response))
    ensures it.Continue? ==> Run(step, h, k, n, last) == Run(step, h + it.added, k + 1, n, Some(it.response))
  {
  }

  /** A run never removes or changes a message: the history only grows. */
  lemma {:induction false} RunExtends<R>(step: Pass<R>, h: seq<Message>, k: nat, n: int, last: Option<R>)
    ensures |h| <= |Run(step, h, k, n, last).history|
    ensures Run(step, h, k, n, last).history[..|h|] == h
    decreases n - k
  {
    if k < n {
      match step(h, k)
      case Raised(added, e) =>
        assert (h + added)[..|h|] == h;
      case Done(added, response) =>
        assert (h + added)[..|h|] == h;
      case Continue(added, response) =>
        var r := Run(step, h + added, k + 1, n, Some(response));
        RunExtends(step, h + added, k + 1, n, Some(response));
        assert r.history[..|h|] == r.history[..|h + added|][..|h|];
    }
  }

  /** Once an iteration ends the loop, a larger `max_iter` changes nothing. */
  lemma LaterIterationsIrrelevant<R>(step: Pass<R>, h: seq<Message>, k: nat, n: int, m: int, last: Option<R>)
    requires k < n && k < m
    requires !step(h, k).Continue?
    ensures Run(step, h, k, n, last) == Run(step, h, k, m, last)
  {
  }

  /** The run ends because an iteration was `Done`. */
  predicate EndsDone<R>(step: Pass<R>, h: seq<Message>, k: nat, n: int)
    decreases n - k
  {
    if n <= k then false
    else
      match step(h, k)
      case Continue(added, _) => EndsDone(step, h + added, k + 1, n)
      case Done(_, _) => true
      case Raised(_, _) => false
  }

  /** A run that ends normally without a `Done` iteration ran all
      `max_iter` iterations; with `max_iter > 0` it has a response. */
  lemma {:induction false} RunExhausted<R>(step: Pass<R>, h: seq<Message>, k: nat, n: int, last: Option<R>)
    requires Run(step, h, k, n, last).Returned?
    ensures !EndsDone(step, h, k, n) ==> Passes(step, h, k, n) == if k < n then n - k else 0
    ensures k < n ==> Run(step, h, k, n, last).last.Some?
    decreases n - k
  {
    if k < n {
      match step(h, k)
      case Raised(added, e) =>
      case Done(added, response) =>
      case Continue(added, response) =>
        RunExhausted(step, h + added, k + 1, n, Some(response));
    }
  }

  /** With every iteration that goes on appending two messages and a
      `Done` one appending `d`, a normal end has appended two messages per
      pass, plus `d - 2` when it ended on `Done`. */
  lemma {:induction false} RunLength<R>(step: Pass<R>, d: nat, h: seq<Message>, k: nat, n: int, last: Option<R>)
    requires forall g, j :: step(g, j).Continue? ==> |step(g, j).added| == 2
    requires forall g, j :: step(g, j).Done? ==> |step(g, j).added| == d
    requires d >= 2
    requires Run(step, h, k, n, last).Returned?
    ensures |Run(step, h, k, n, last).history| ==
      |h| + 2 * Passes(step, h, k, n) + (if EndsDone(step, h, k, n) then d - 2 else 0)
    decreases n - k
  {
    if k < n {
      match step(h, k)
      case Raised(added, e) =>
      case Done(added, response) =>
      case Continue(added, response) =>
        RunLength(step, d, h + added, k + 1, n, Some(response));
    }
  }

  /** When every iteration starts with the assistant message and the
      system message, and a failing one appends at most the assistant
      message, the messages of the first `2 * passes` positions after the
      start alternate assistant, system, assistant, ... */
  lemma {:induction false} RunAlternates<R>(step: Pass<R>, h: seq<Message>, k: nat, n: int, last: Option<R>)
    requires forall g, j :: RaisesCleanly(step(g, j)) && ContinuesWithPair(step(g, j))
    requires forall g, j :: step(g, j).Done? ==>
      |step(g, j).added| >= 2 && step(g, j).added[0].role == Assistant && step(g, j).added[1].role == System
    ensures var r := Run(step, h, k, n, last).history;
      forall t :: |h| <= t < |r| && t < |h| + 2 * Passes(step, h, k, n) ==> r[t].role == RoleAt(t - |h|)
    decreases n - k
  {
    if k < n {
      var r := Run(step, h, k, n, last).history;
      match step(h, k)
      case Raised(added, e) =>
        assert forall t :: |h| <= t < |r| ==> r[t] == added[t - |h|];
      case Done(added, response) =>
        assert forall t :: |h| <= t < |h| + 2 ==> r[t] == added[t - |h|];
      case Continue(added, response) =>
        var g := h + added;
        RunAlternates(step, g, k + 1, n, Some(response));
        RunExtends(step, g, k + 1, n, Some(response));
        forall t | |h| <= t < |r| && t < |h| + 2 * Passes(step, h, k, n)
          ensures r[t].role == RoleAt(t - |h|)
        {
          if t < |g| {
            assert r[t] == r[..|g|][t] == g[t] == added[t - |h|];
          } else {
            assert RoleAt(t - |h|) == RoleAt(t - |g|);
          }
        }
    }
  }
}
