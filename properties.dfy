/**
 * What SimpleChain.java promises about an execution, proved of `RunChain`
 * (and so, through `SimpleChains.Execute`'s postcondition, of the executor).
 */
module ChainProperties {
  import opened Wrappers
  import opened Observers
  import opened Commands
  import opened SimpleChains

  // ---------------------------------------------------------------- composition and short-circuit

  /** Running `xs + ys` is running `xs`, then, only if that completed normally, `ys`. */
  lemma {:induction false} RunCommandsAppend(ch: SimpleChain, xs: seq<Command>, ys: seq<Command>, ctx: Journal)
    ensures RunCommands(ch, xs, ctx).completion.Thrown? ==>
              RunCommands(ch, xs + ys, ctx) == RunCommands(ch, xs, ctx)
    ensures RunCommands(ch, xs, ctx).completion.Normal? ==>
              RunCommands(ch, xs + ys, ctx)
              == Prefix(RunCommands(ch, xs, ctx).trace, RunCommands(ch, ys, RunCommands(ch, xs, ctx).ctx))
    decreases xs
  {
    if xs == [] {
      assert xs + ys == ys;
    } else {
      assert (xs + ys)[0] == xs[0] && (xs + ys)[1..] == xs[1..] + ys;
      var s := Step(ch, xs[0], ctx);
      if s.completion.Normal? {
        RunCommandsAppend(ch, xs[1..], ys, s.ctx);
      }
    }
  }

  /**
   * The first failing command ends the execution: its exception is the one
   * `execute` throws, and the commands after it are never notified,
   * executed, logged or reverted for.
   */
  lemma ShortCircuit(ch: SimpleChain, cs: seq<Command>, i: nat, ctx: Journal)
    requires i < |cs|
    requires RunCommands(ch, cs[..i], ctx).completion.Normal?
    requires Step(ch, cs[i], RunCommands(ch, cs[..i], ctx).ctx).completion.Thrown?
    ensures RunCommands(ch, cs, ctx)
            == Prefix(RunCommands(ch, cs[..i], ctx).trace, Step(ch, cs[i], RunCommands(ch, cs[..i], ctx).ctx))
    ensures RunCommands(ch, cs, ctx) == RunCommands(ch, cs[..i + 1], ctx)
  {
    var pre := RunCommands(ch, cs[..i], ctx);
    assert cs == cs[..i] + cs[i..];
    RunCommandsAppend(ch, cs[..i], cs[i..], ctx);
    assert cs[i..][0] == cs[i];
    assert cs[..i + 1] == cs[..i] + [cs[i]];
    RunCommandsAppend(ch, cs[..i], [cs[i]], ctx);
  }

  // ---------------------------------------------------------------- one step, laid out flat

  /** The value `errorInCommand` holds when the `finally` block runs. */
  function ErrorInCommand(ch: SimpleChain, c: Command, x: Run): Option<Error> {
    if x.completion.Thrown? && LogError(ch.logger, ExecutePhase, c, x.completion.error).completion.Normal?
    then Some(x.completion.error) else None
  }

  /** The calls the `catch` block makes: logging the command's exception, if it threw. */
  function CatchTrace(ch: SimpleChain, c: Command, x: Run): seq<Event> {
    if x.completion.Thrown? then LogError(ch.logger, ExecutePhase, c, x.completion.error).trace else []
  }

  /** A step's calls in order: started, execute, catch, finished, and revert when `errorInCommand` is set. */
  lemma StepTrace(ch: SimpleChain, c: Command, ctx: Journal)
    requires NotifyStarted(ch, c).completion.Normal?
    ensures var x := ExecuteCommand(c, ctx);
            var err := ErrorInCommand(ch, c, x);
            var f := NotifyFinished(ch, c, err);
            && Step(ch, c, ctx).trace
               == NotifyStarted(ch, c).trace + x.trace + CatchTrace(ch, c, x) + f.trace
                  + (if f.completion.Normal? && err.Some? then [Reverted(c)] else [])
            && Step(ch, c, ctx).ctx == (if f.completion.Normal? && err.Some? then Revert(c, x.ctx).ctx else x.ctx)
  {
  }

  // ---------------------------------------------------------------- revert

  /** The number of `revert` calls in `t`. */
  function Reverts(t: seq<Event>): nat {
    if t == [] then 0 else (if t[0].Reverted? then 1 else 0) + Reverts(t[1..])
  }

  lemma {:induction false} RevertsAppend(a: seq<Event>, b: seq<Event>)
    ensures Reverts(a + b) == Reverts(a) + Reverts(b)
  {
    if a != [] {
      assert (a + b)[0] == a[0] && (a + b)[1..] == a[1..] + b;
      RevertsAppend(a[1..], b);
    } else {
      assert a + b == b;
    }
  }

  /** An execution that completes normally calls `revert` on no command at all. */
  lemma {:induction false} NormalRunHasNoRevert(ch: SimpleChain, cs: seq<Command>, ctx: Journal)
    requires RunCommands(ch, cs, ctx).completion.Normal?
    ensures Reverts(RunCommands(ch, cs, ctx).trace) == 0
    decreases cs
  {
    if cs != [] {
      var s := Step(ch, cs[0], ctx);
      NormalStepHasNoRevert(ch, cs[0], ctx);
      NormalRunHasNoRevert(ch, cs[1..], s.ctx);
      RevertsAppend(s.trace, RunCommands(ch, cs[1..], s.ctx).trace);
    }
  }

  /** A step completes normally only if its command did, and then reverts nothing. */
  lemma {:induction false} NormalStepHasNoRevert(ch: SimpleChain, c: Command, ctx: Journal)
    requires Step(ch, c, ctx).completion.Normal?
    ensures ExecuteCommand(c, ctx).completion.Normal?
    ensures Reverts(Step(ch, c, ctx).trace) == 0
    decreases c, 1
  {
    NormalExecuteHasNoRevert(c, ctx);
    StepReverts(ch, c, ctx);
  }

  lemma {:induction false} NormalExecuteHasNoRevert(c: Command, ctx: Journal)
    requires ExecuteCommand(c, ctx).completion.Normal?
    ensures Reverts(ExecuteCommand(c, ctx).trace) == 0
    decreases c, 0
  {
    assert Reverts([Exec(c)]) == 0 by {
      assert [Exec(c)][1..] == [];
    }
    if c.Sub? {
      NormalRunHasNoRevert(c.chain, c.chain.commands, ctx);
      RevertsAppend([Exec(c)], RunChain(c.chain, ctx).trace);
    }
  }

  /**
   * A step's `revert` calls: those its command's execution made, and one more
   * exactly when `errorInCommand` is set and the finished notification completed.
   */
  lemma StepReverts(ch: SimpleChain, c: Command, ctx: Journal)
    requires NotifyStarted(ch, c).completion.Normal?
    ensures var x := ExecuteCommand(c, ctx);
            var err := ErrorInCommand(ch, c, x);
            Reverts(Step(ch, c, ctx).trace)
            == Reverts(x.trace) + (if NotifyFinished(ch, c, err).completion.Normal? && err.Some? then 1 else 0)
  {
    var started := NotifyStarted(ch, c);
    var x := ExecuteCommand(c, ctx);
    var err := ErrorInCommand(ch, c, x);
    var f := NotifyFinished(ch, c, err);
    var tail := if f.completion.Normal? && err.Some? then [Reverted(c)] else [];
    StepTrace(ch, c, ctx);
    NotificationsHaveNoEffect(ch, c, x);
    assert Reverts(tail) == if tail == [] then 0 else 1;
    RevertsAroundQuietCalls(started.trace, x.trace, CatchTrace(ch, c, x), f.trace, tail);
  }

  /**
   * `revert` is called once more than the command's own execution called it
   * exactly when the command threw, the logger recorded that error without
   * throwing (so `errorInCommand` was set), and the finished notification
   * completed; otherwise it is not called. A command that succeeds is never
   * reverted.
   */
  lemma RevertExactlyWhenRecorded(ch: SimpleChain, c: Command, ctx: Journal)
    requires NotifyStarted(ch, c).completion.Normal?
    ensures ExecuteCommand(c, ctx).completion.Normal? ==> Reverts(Step(ch, c, ctx).trace) == 0
    ensures ExecuteCommand(c, ctx).completion.Thrown? ==>
              var e := ExecuteCommand(c, ctx).completion.error;
              var recorded := LogError(ch.logger, ExecutePhase, c, e).completion.Normal?
                              && NotifyFinished(ch, c, Some(e)).completion.Normal?;
              Reverts(Step(ch, c, ctx).trace) == Reverts(ExecuteCommand(c, ctx).trace) + (if recorded then 1 else 0)
  {
    StepReverts(ch, c, ctx);
    if ExecuteCommand(c, ctx).completion.Normal? {
      NormalExecuteHasNoRevert(c, ctx);
    }
  }

  /**
   * Commands that completed before the first failing one are never reverted:
   * every `revert` call of the run is one the failing step made.
   */
  lemma SucceededNeverReverted(ch: SimpleChain, cs: seq<Command>, i: nat, ctx: Journal)
    requires i < |cs|
    requires RunCommands(ch, cs[..i], ctx).completion.Normal?
    requires Step(ch, cs[i], RunCommands(ch, cs[..i], ctx).ctx).completion.Thrown?
    ensures Reverts(RunCommands(ch, cs, ctx).trace)
            == Reverts(Step(ch, cs[i], RunCommands(ch, cs[..i], ctx).ctx).trace)
  {
    var pre := RunCommands(ch, cs[..i], ctx);
    ShortCircuit(ch, cs, i, ctx);
    NormalRunHasNoRevert(ch, cs[..i], ctx);
    RevertsAppend(pre.trace, Step(ch, cs[i], pre.ctx).trace);
  }

  lemma RevertsAroundQuietCalls(a: seq<Event>, x: seq<Event>, b: seq<Event>, f: seq<Event>, tail: seq<Event>)
    requires Reverts(a) == 0 && Reverts(b) == 0 && Reverts(f) == 0
    ensures Reverts(a + x + b + f + tail) == Reverts(x) + Reverts(tail)
  {
    RevertsAppend(a, x);
    RevertsAppend(a + x, b);
    RevertsAppend(a + x + b, f);
    RevertsAppend(a + x + b + f, tail);
  }

  // ---------------------------------------------------------------- a failing command

  /**
   * A command that throws `e`: after its `execute` the logger gets
   * ("execute", c, e), the listener's `commandFinished` gets `e`, `revert` is
   * called once, and `e` itself is rethrown, unless the finished notification
   * or `revert` throws, whose exception then replaces `e`.
   */
  lemma ExecuteFailureProtocol(ch: SimpleChain, c: Command, ctx: Journal)
    requires NotifyStarted(ch, c).completion.Normal?
    requires ExecuteCommand(c, ctx).completion.Thrown?
    requires ch.logger.Failure(ExecutePhase, c.name).None?
    ensures var x := ExecuteCommand(c, ctx);
            var e := x.completion.error;
            var f := NotifyFinished(ch, c, Some(e));
            var s := Step(ch, c, ctx);
            && (f.completion.Normal? ==>
                  && s.trace == NotifyStarted(ch, c).trace + x.trace
                                + (if ch.logger.Recorder? then [Log("execute", c, e)] else [])
                                + f.trace + [Reverted(c)]
                  && s.ctx == Revert(c, x.ctx).ctx
                  && s.completion == (if Revert(c, x.ctx).completion.Thrown? then Revert(c, x.ctx).completion else Thrown(e)))
            && (f.completion.Thrown? ==> s.ctx == x.ctx && s.completion == f.completion)
  {
  }

  /**
   * The logger throws while logging the command's exception: `errorInCommand`
   * is still null, so `commandFinished` is told no error, `revert` is not
   * called, and the logger's exception escapes (unless the finished
   * notification throws in turn).
   */
  lemma LoggerFailureInExecuteCatch(ch: SimpleChain, c: Command, ctx: Journal, ge: Error)
    requires NotifyStarted(ch, c).completion.Normal?
    requires ExecuteCommand(c, ctx).completion.Thrown?
    requires ch.logger.Failure(ExecutePhase, c.name) == Some(ge)
    ensures var x := ExecuteCommand(c, ctx);
            var f := NotifyFinished(ch, c, None);
            var s := Step(ch, c, ctx);
            && s.trace == NotifyStarted(ch, c).trace + x.trace + [Log("execute", c, x.completion.error)] + f.trace
            && s.ctx == x.ctx
            && s.completion == (if f.completion.Thrown? then f.completion else Thrown(ge))
  {
  }

  /**
   * The logger throws while logging a `commandStarted` failure: its exception
   * escapes before the command is executed.
   */
  lemma LoggerFailureInStarted(ch: SimpleChain, c: Command, rest: seq<Command>, ctx: Journal, e: Error, ge: Error)
    requires ch.listener.Some? && ch.listener.value.StartedFailure(c.name) == Some(e)
    requires ch.logger.Failure(StartedPhase, c.name) == Some(ge)
    ensures RunCommands(ch, [c] + rest, ctx) == Run([Started(c), Log("commandStarted", c, e)], ctx, Thrown(ge))
  {
    assert ([c] + rest)[0] == c;
  }

  /** The first command throws `e` (no listener, a recording logger). */
  lemma FirstCommandFails(g: Logger, c1: Command, rest: seq<Command>, ctx: Journal, e: Error)
    requires c1.Leaf? && c1.failure == Some(e) && c1.reverter.DefaultRevert?
    requires g.Recorder? && g.Failure(ExecutePhase, c1.name).None?
    ensures RunChain(New(Some(g), [c1] + rest), ctx)
            == Run([Exec(c1), Log("execute", c1, e), Reverted(c1)], ctx + c1.writes, Thrown(e))
  {
    var ch := New(Some(g), [c1] + rest);
    assert ([c1] + rest)[0] == c1;
    var x := ExecuteCommand(c1, ctx);
    assert x == Run([Exec(c1)], ctx + c1.writes, Thrown(e));
    assert LogError(g, ExecutePhase, c1, e) == Reaction([Log("execute", c1, e)], Normal);
    assert Finally(ch, c1, x.ctx, Some(e), Thrown(e)) == Run([Reverted(c1)], x.ctx, Thrown(e));
    var s := Step(ch, c1, ctx);
    assert s == Run([Exec(c1), Log("execute", c1, e), Reverted(c1)], ctx + c1.writes, Thrown(e));
    assert RunCommands(ch, [c1] + rest, ctx) == s;
  }

  /**
   * A nested chain whose second command throws `e`: the inner chain logs and
   * reverts that command, then the outer chain logs ("execute", sub-chain, e),
   * reverts the sub-chain, which does nothing, and rethrows `e`; the command
   * after the sub-chain never runs, and the inner command that succeeded is
   * not undone (its writes stay in the context).
   */
  lemma SubChainFailure(g: Logger, c0: Command, c1: Command, s: nat, c2: Command, ctx: Journal, e: Error)
    requires c0.Leaf? && c0.failure.None?
    requires c1.Leaf? && c1.failure == Some(e) && c1.reverter.DefaultRevert?
    requires g.Recorder? && g.Failure(ExecutePhase, c1.name).None? && g.Failure(ExecutePhase, s).None?
    ensures var sub := Sub(s, New(Some(g), [c0, c1]));
            RunChain(New(Some(g), [sub, c2]), ctx)
            == Run([Exec(sub), Exec(c0), Exec(c1), Log("execute", c1, e), Reverted(c1),
                    Log("execute", sub, e), Reverted(sub)],
                   ctx + c0.writes + c1.writes, Thrown(e))
  {
    var inner := New(Some(g), [c0, c1]);
    var sub := Sub(s, inner);
    assert [c0, c1][1..] == [c1];
    var x0 := ExecuteCommand(c0, ctx);
    assert x0 == Run([Exec(c0)], ctx + c0.writes, Normal);
    assert Finally(inner, c0, x0.ctx, None, Normal) == Run([], x0.ctx, Normal);
    var r0 := Step(inner, c0, ctx);
    assert r0 == Run([Exec(c0)], ctx + c0.writes, Normal);
    var x1 := ExecuteCommand(c1, r0.ctx);
    assert x1 == Run([Exec(c1)], ctx + c0.writes + c1.writes, Thrown(e));
    assert LogError(g, ExecutePhase, c1, e) == Reaction([Log("execute", c1, e)], Normal);
    assert Finally(inner, c1, x1.ctx, Some(e), Thrown(e)) == Run([Reverted(c1)], x1.ctx, Thrown(e));
    var r1 := Step(inner, c1, r0.ctx);
    assert r1 == Run([Exec(c1), Log("execute", c1, e), Reverted(c1)], ctx + c0.writes + c1.writes, Thrown(e));
    assert RunCommands(inner, [c1], r0.ctx) == r1;
    assert RunChain(inner, ctx) == Prefix(r0.trace, r1);
    var outer := New(Some(g), [sub, c2]);
    var xs := ExecuteCommand(sub, ctx);
    assert xs == Run([Exec(sub), Exec(c0), Exec(c1), Log("execute", c1, e), Reverted(c1)],
                     ctx + c0.writes + c1.writes, Thrown(e));
    assert LogError(g, ExecutePhase, sub, e) == Reaction([Log("execute", sub, e)], Normal);
    assert Finally(outer, sub, xs.ctx, Some(e), Thrown(e)) == Run([Reverted(sub)], xs.ctx, Thrown(e));
    var rs := Step(outer, sub, ctx);
    assert rs == Run(xs.trace + [Log("execute", sub, e), Reverted(sub)], xs.ctx, Thrown(e));
    assert [sub, c2][0] == sub;
    assert RunCommands(outer, [sub, c2], ctx) == rs;
  }

  /**
   * The test's sub-chain of one failing command: the inner chain logs and
   * reverts that command, then the outer chain logs ("execute", sub-chain, e),
   * reverts the sub-chain, which does nothing, and rethrows `e`; the command
   * after the sub-chain never runs.
   */
  lemma SubChainFirstCommandFails(g: Logger, c1: Command, s: nat, c2: Command, ctx: Journal, e: Error)
    requires c1.Leaf? && c1.failure == Some(e) && c1.reverter.DefaultRevert?
    requires g.Recorder? && g.Failure(ExecutePhase, c1.name).None? && g.Failure(ExecutePhase, s).None?
    ensures var sub := Sub(s, New(Some(g), [c1]));
            RunChain(New(Some(g), [sub, c2]), ctx)
            == Run([Exec(sub), Exec(c1), Log("execute", c1, e), Reverted(c1), Log("execute", sub, e), Reverted(sub)],
                   ctx + c1.writes, Thrown(e))
  {
    var inner := New(Some(g), [c1]);
    var sub := Sub(s, inner);
    assert [c1] + [] == [c1];
    FirstCommandFails(g, c1, [], ctx, e);
    var outer := New(Some(g), [sub, c2]);
    var xs := ExecuteCommand(sub, ctx);
    assert xs == Run([Exec(sub), Exec(c1), Log("execute", c1, e), Reverted(c1)], ctx + c1.writes, Thrown(e));
    assert LogError(g, ExecutePhase, sub, e) == Reaction([Log("execute", sub, e)], Normal);
    assert Finally(outer, sub, xs.ctx, Some(e), Thrown(e)) == Run([Reverted(sub)], xs.ctx, Thrown(e));
    var rs := Step(outer, sub, ctx);
    assert rs == Run(xs.trace + [Log("execute", sub, e), Reverted(sub)], xs.ctx, Thrown(e));
    assert [sub, c2][0] == sub;
    assert RunCommands(outer, [sub, c2], ctx) == rs;
  }

  /**
   * A chain built without a listener makes no `commandStarted` or
   * `commandFinished` call for its commands: a step's own calls are the
   * command's `execute`, the catch block's log, and the `revert`.
   */
  lemma UnlistenedStep(logger: Option<Logger>, cs: seq<Command>, c: Command, ctx: Journal)
    ensures var ch := New(logger, cs);
            var x := ExecuteCommand(c, ctx);
            && NotifyStarted(ch, c) == Reaction([], Normal)
            && Step(ch, c, ctx).trace
               == x.trace + CatchTrace(ch, c, x) + (if ErrorInCommand(ch, c, x).Some? then [Reverted(c)] else [])
  {
    var ch := New(logger, cs);
    StepTrace(ch, c, ctx);
    assert NotifyFinished(ch, c, ErrorInCommand(ch, c, ExecuteCommand(c, ctx))) == Reaction([], Normal);
  }

  // ---------------------------------------------------------------- runs without failures

  /** A command that does not fail, and that contains no listener anywhere. */
  ghost predicate Quiet(c: Command)
    decreases c
  {
    match c
    case Leaf(_, _, failure, _) => failure.None?
    case Sub(_, inner) => inner.listener.None? && forall k | 0 <= k < |inner.commands| :: Quiet(inner.commands[k])
  }

  /** The calls a quiet command makes: its own `execute`, then those of its nested commands. */
  function PlainCalls(c: Command): seq<Event>
    decreases c, 1
  {
    match c
    case Leaf(_, _, _, _) => [Exec(c)]
    case Sub(_, inner) => [Exec(c)] + PlainTrace(inner.commands)
  }

  /** Each command's calls, one command after the other, in list order. */
  function PlainTrace(cs: seq<Command>): seq<Event>
    decreases cs
  {
    if cs == [] then [] else PlainCalls(cs[0]) + PlainTrace(cs[1..])
  }

  /** The writes of every scripted command in `cs`, nested ones included, in order. */
  function PlainWrites(cs: seq<Command>): seq<Write>
    decreases cs
  {
    if cs == [] then [] else PlainWrite(cs[0]) + PlainWrites(cs[1..])
  }

  function PlainWrite(c: Command): seq<Write>
    decreases c
  {
    match c
    case Leaf(_, writes, _, _) => writes
    case Sub(_, inner) => PlainWrites(inner.commands)
  }

  /**
   * Without a listener and without failures, `execute` calls each command's
   * `execute` exactly once, in list order (nested chains included), and
   * completes normally; an empty chain does nothing.
   */
  lemma RunAllWithoutListener(ch: SimpleChain, ctx: Journal)
    requires ch.listener.None?
    requires forall k | 0 <= k < |ch.commands| :: Quiet(ch.commands[k])
    ensures RunChain(ch, ctx) == Run(PlainTrace(ch.commands), ctx + PlainWrites(ch.commands), Normal)
    ensures ch.commands == [] ==> RunChain(ch, ctx) == Run([], ctx, Normal)
  {
    QuietCommandsRun(ch, ch.commands, ctx);
  }

  lemma {:induction false} QuietCommandsRun(ch: SimpleChain, cs: seq<Command>, ctx: Journal)
    requires ch.listener.None?
    requires forall k | 0 <= k < |cs| :: Quiet(cs[k])
    ensures RunCommands(ch, cs, ctx) == Run(PlainTrace(cs), ctx + PlainWrites(cs), Normal)
    decreases cs
  {
    if cs != [] {
      assert Quiet(cs[0]);
      QuietCommandExecutes(cs[0], ctx);
      var x := ExecuteCommand(cs[0], ctx);
      assert Step(ch, cs[0], ctx) == x;
      assert forall k | 0 <= k < |cs[1..]| :: Quiet(cs[1..][k]) by {
        forall k | 0 <= k < |cs[1..]| ensures Quiet(cs[1..][k]) { assert cs[1..][k] == cs[k + 1]; }
      }
      QuietCommandsRun(ch, cs[1..], x.ctx);
      assert ctx + PlainWrites(cs) == ctx + PlainWrite(cs[0]) + PlainWrites(cs[1..]);
    }
  }

  lemma {:induction false} QuietCommandExecutes(c: Command, ctx: Journal)
    requires Quiet(c)
    ensures ExecuteCommand(c, ctx) == Run(PlainCalls(c), ctx + PlainWrite(c), Normal)
    decreases c, 0
  {
    if c.Sub? {
      QuietCommandsRun(c.chain, c.chain.commands, ctx);
    }
  }

  // ---------------------------------------------------------------- listener errors

  /**
   * With a listener, each command in turn: `commandStarted`, the listener's
   * error if it threw, `execute`, `commandFinished` with no error, the
   * listener's error if it threw.
   */
  function ListenedTrace(g: Logger, l: Listener, cs: seq<Command>): seq<Event>
    decreases cs
  {
    if cs == [] then []
    else
      var c := cs[0];
      [Started(c)] + Logged(g, StartedPhase, c, l.StartedFailure(c.name))
      + [Exec(c), Finished(c, None)] + Logged(g, FinishedPhase, c, l.FinishedFailure(c.name))
      + ListenedTrace(g, l, cs[1..])
  }

  /** Scripted commands none of which fails. */
  ghost predicate Succeeding(cs: seq<Command>) {
    forall k | 0 <= k < |cs| :: cs[k].Leaf? && cs[k].failure.None?
  }

  /** A logger that does not throw when handed a listener error for `cs`. */
  ghost predicate ToleratesListener(g: Logger, cs: seq<Command>) {
    forall k | 0 <= k < |cs| :: g.Failure(StartedPhase, cs[k].name).None? && g.Failure(FinishedPhase, cs[k].name).None?
  }

  /**
   * Listener exceptions are logged once, with the phase, command and error,
   * and swallowed: every command still executes, in order, and the chain
   * completes normally.
   */
  lemma {:induction false} ListenerErrorsSwallowed(ch: SimpleChain, l: Listener, cs: seq<Command>, ctx: Journal)
    requires ch.listener == Some(l)
    requires Succeeding(cs) && ToleratesListener(ch.logger, cs)
    ensures RunCommands(ch, cs, ctx) == Run(ListenedTrace(ch.logger, l, cs), ctx + PlainWrites(cs), Normal)
    decreases cs
  {
    if cs != [] {
      var c := cs[0];
      ListenedStep(ch, l, c, ctx);
      assert Succeeding(cs[1..]) && ToleratesListener(ch.logger, cs[1..]) by {
        forall k | 0 <= k < |cs[1..]| ensures cs[1..][k] == cs[k + 1] { }
      }
      ListenerErrorsSwallowed(ch, l, cs[1..], ctx + c.writes);
      assert ctx + PlainWrites(cs) == ctx + c.writes + PlainWrites(cs[1..]);
    }
  }

  /** One command of `ListenerErrorsSwallowed`. */
  lemma ListenedStep(ch: SimpleChain, l: Listener, c: Command, ctx: Journal)
    requires ch.listener == Some(l)
    requires c.Leaf? && c.failure.None?
    requires ch.logger.Failure(StartedPhase, c.name).None? && ch.logger.Failure(FinishedPhase, c.name).None?
    ensures Step(ch, c, ctx)
            == Run([Started(c)] + Logged(ch.logger, StartedPhase, c, l.StartedFailure(c.name))
                   + [Exec(c), Finished(c, None)] + Logged(ch.logger, FinishedPhase, c, l.FinishedFailure(c.name)),
                   ctx + c.writes, Normal)
  {
    assert NotifyStarted(ch, c) == Reaction([Started(c)] + Logged(ch.logger, StartedPhase, c, l.StartedFailure(c.name)), Normal);
    assert NotifyFinished(ch, c, None)
           == Reaction([Finished(c, None)] + Logged(ch.logger, FinishedPhase, c, l.FinishedFailure(c.name)), Normal);
    assert ExecuteCommand(c, ctx) == Run([Exec(c)], ctx + c.writes, Normal);
    StepTrace(ch, c, ctx);
  }

  /**
   * A chain built with a null logger: whatever its listener throws, `execute`
   * makes exactly the calls it makes with a listener that never throws, and
   * completes normally.
   */
  lemma DefaultLoggerSwallowsListenerErrors(l: Listener, cs: seq<Command>, ctx: Journal)
    requires Succeeding(cs)
    ensures RunChain(NewWithListener(None, Some(l), cs), ctx)
            == RunChain(NewWithListener(None, Some(SILENT_LISTENER), cs), ctx)
    ensures RunChain(NewWithListener(None, Some(l), cs), ctx).completion == Normal
  {
    ListenerErrorsSwallowed(NewWithListener(None, Some(l), cs), l, cs, ctx);
    ListenerErrorsSwallowed(NewWithListener(None, Some(SILENT_LISTENER), cs), SILENT_LISTENER, cs, ctx);
    DefaultTraceIgnoresListener(l, cs);
  }

  lemma {:induction false} DefaultTraceIgnoresListener(l: Listener, cs: seq<Command>)
    ensures ListenedTrace(DefaultLogger, l, cs) == ListenedTrace(DefaultLogger, SILENT_LISTENER, cs)
    decreases cs
  {
    if cs != [] {
      DefaultTraceIgnoresListener(l, cs[1..]);
    }
  }

  // ---------------------------------------------------------------- the context

  /** What a call does to the context: a scripted `execute`, or an overriding `revert`. */
  function EventEffect(ev: Event): seq<Write> {
    match ev
    case Exec(Leaf(_, writes, _, _)) => writes
    case Reverted(Leaf(_, _, _, CustomRevert(undoWrites, _))) => undoWrites
    case _ => []
  }

  /** The updates the calls `t` make to the context, in order. */
  function Effects(t: seq<Event>): seq<Write> {
    if t == [] then [] else EventEffect(t[0]) + Effects(t[1..])
  }

  lemma {:induction false} EffectsAppend(a: seq<Event>, b: seq<Event>)
    ensures Effects(a + b) == Effects(a) + Effects(b)
  {
    if a != [] {
      assert (a + b)[0] == a[0] && (a + b)[1..] == a[1..] + b;
      EffectsAppend(a[1..], b);
    } else {
      assert a + b == b;
    }
  }

  /** Calls to the listener and the logger only. */
  ghost predicate Notifications(t: seq<Event>) {
    forall k | 0 <= k < |t| :: t[k].Started? || t[k].Finished? || t[k].Log?
  }

  /** Notifications (`Started`, `Finished`, `Log`) call no `revert` and leave the context alone. */
  lemma {:induction false} QuietCallsHaveNoEffect(t: seq<Event>)
    requires Notifications(t)
    ensures Effects(t) == [] && Reverts(t) == 0
  {
    if t != [] {
      assert t[0].Started? || t[0].Finished? || t[0].Log?;
      assert Notifications(t[1..]) by {
        forall k | 0 <= k < |t[1..]| ensures t[1..][k] == t[k + 1] { }
      }
      QuietCallsHaveNoEffect(t[1..]);
    }
  }

  /**
   * The chain itself never touches the context: its state afterwards is its
   * state before, followed by exactly the updates of the `execute` and
   * `revert` calls in the trace. In particular reverting a nested chain
   * changes nothing.
   */
  lemma {:induction false} ContextChangesOnlyThroughCommands(ch: SimpleChain, cs: seq<Command>, ctx: Journal)
    ensures RunCommands(ch, cs, ctx).ctx == ctx + Effects(RunCommands(ch, cs, ctx).trace)
    decreases cs
  {
    if cs == [] {
    } else {
      var s := Step(ch, cs[0], ctx);
      StepEffects(ch, cs[0], ctx);
      if s.completion.Normal? {
        var r := RunCommands(ch, cs[1..], s.ctx);
        ContextChangesOnlyThroughCommands(ch, cs[1..], s.ctx);
        EffectsAppend(s.trace, r.trace);
      }
    }
  }

  lemma {:induction false} StepEffects(ch: SimpleChain, c: Command, ctx: Journal)
    ensures Step(ch, c, ctx).ctx == ctx + Effects(Step(ch, c, ctx).trace)
    decreases c, 1
  {
    var started := NotifyStarted(ch, c);
    if started.completion.Normal? {
      var x := ExecuteCommand(c, ctx);
      var err := ErrorInCommand(ch, c, x);
      var f := NotifyFinished(ch, c, err);
      var reverted := f.completion.Normal? && err.Some?;
      var tail := if reverted then [Reverted(c)] else [];
      var s := Step(ch, c, ctx);
      StepTrace(ch, c, ctx);
      ExecuteEffects(c, ctx);
      NotificationsHaveNoEffect(ch, c, x);
      assert s.ctx == x.ctx + Effects(tail) by {
        if reverted {
          RevertEffect(c, x.ctx);
        } else {
          assert tail == [];
        }
      }
      EffectsOfParts(started.trace, x.trace, CatchTrace(ch, c, x), f.trace, tail, ctx, x.ctx, s.ctx);
    } else {
      NotificationsHaveNoEffect(ch, c, ExecuteCommand(c, ctx));
    }
  }

  /** `revert` changes the context by exactly what its call contributes to `Effects`. */
  lemma RevertEffect(c: Command, ctx: Journal)
    ensures Revert(c, ctx).ctx == ctx + Effects([Reverted(c)])
  {
    assert Effects([Reverted(c)]) == EventEffect(Reverted(c)) + Effects([]);
  }

  /** The listener and logger calls of a step are notifications only. */
  lemma NotificationsOnly(ch: SimpleChain, c: Command, x: Run)
    ensures Notifications(NotifyStarted(ch, c).trace)
    ensures Notifications(CatchTrace(ch, c, x))
    ensures Notifications(NotifyFinished(ch, c, ErrorInCommand(ch, c, x)).trace)
  {
  }

  /** The listener and logger calls of a step call no `revert` and leave the context alone. */
  lemma NotificationsHaveNoEffect(ch: SimpleChain, c: Command, x: Run)
    ensures Effects(NotifyStarted(ch, c).trace) == [] && Reverts(NotifyStarted(ch, c).trace) == 0
    ensures Effects(CatchTrace(ch, c, x)) == [] && Reverts(CatchTrace(ch, c, x)) == 0
    ensures var f := NotifyFinished(ch, c, ErrorInCommand(ch, c, x)).trace;
            Effects(f) == [] && Reverts(f) == 0
  {
    NotificationsOnly(ch, c, x);
    QuietCallsHaveNoEffect(NotifyStarted(ch, c).trace);
    QuietCallsHaveNoEffect(CatchTrace(ch, c, x));
    QuietCallsHaveNoEffect(NotifyFinished(ch, c, ErrorInCommand(ch, c, x)).trace);
  }

  /** Around quiet calls `a`, `b` and `f`, a context changed by `x` and then by `tail` changed by the whole. */
  lemma EffectsOfParts(a: seq<Event>, x: seq<Event>, b: seq<Event>, f: seq<Event>, tail: seq<Event>,
                       ctx: Journal, mid: Journal, after: Journal)
    requires Effects(a) == [] && Effects(b) == [] && Effects(f) == []
    requires mid == ctx + Effects(x) && after == mid + Effects(tail)
    ensures after == ctx + Effects(a + x + b + f + tail)
  {
    EffectsAroundQuietCalls(a, x, b, f, tail);
    JournalAssoc(ctx, Effects(x), Effects(tail));
  }

  lemma EffectsAroundQuietCalls(a: seq<Event>, x: seq<Event>, b: seq<Event>, f: seq<Event>, tail: seq<Event>)
    requires Effects(a) == [] && Effects(b) == [] && Effects(f) == []
    ensures Effects(a + x + b + f + tail) == Effects(x) + Effects(tail)
  {
    EffectsAppend(a, x);
    EffectsAppend(a + x, b);
    EffectsAppend(a + x + b, f);
    EffectsAppend(a + x + b + f, tail);
  }

  lemma JournalAssoc(j: Journal, u: seq<Write>, v: seq<Write>)
    ensures j + u + v == j + (u + v)
  {
  }

  lemma {:induction false} ExecuteEffects(c: Command, ctx: Journal)
    ensures ExecuteCommand(c, ctx).ctx == ctx + Effects(ExecuteCommand(c, ctx).trace)
    decreases c, 0
  {
    assert Effects([Exec(c)]) == EventEffect(Exec(c));
    if c.Sub? {
      ContextChangesOnlyThroughCommands(c.chain, c.chain.commands, ctx);
      EffectsAppend([Exec(c)], RunChain(c.chain, ctx).trace);
    }
  }
}
