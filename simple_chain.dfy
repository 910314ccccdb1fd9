/**
 * The chain executor of SimpleChain.java.
 *
 * `RunChain` is the specification: a recursive function giving, for a chain
 * and the state of the context, the trace of every call the execution makes
 * (to the listener, to the commands, to a recording logger), the final state
 * of the context and how `execute` completes. `Execute` is the executor
 * itself, a loop over the command list that updates a `Context` object in
 * place, proved to agree with `RunChain`.
 */
module SimpleChains {
  import opened Wrappers
  import opened Observers
  import opened Commands

  /** One call observed during an execution, in the order it is made. */
  datatype Event =
    | Started(command: Command)                        // listener.commandStarted
    | Exec(command: Command)                           // command.execute
    | Log(methodName: string, command: Command, error: Error) // logger.logError on a Recorder
    | Finished(command: Command, commandError: Option<Error>) // listener.commandFinished
    | Reverted(command: Command)                       // command.revert

  /** The calls made by a listener or logger notification, and how it completed. */
  datatype Reaction = Reaction(trace: seq<Event>, completion: Completion)

  /** The calls made by an execution, the context afterwards, and how it completed. */
  datatype Run = Run(trace: seq<Event>, ctx: Journal, completion: Completion)

  /** `r`, preceded by the calls `t`. */
  function Prefix(t: seq<Event>, r: Run): Run {
    Run(t + r.trace, r.ctx, r.completion)
  }

  // ---------------------------------------------------------------- construction

  /** The constructor without a listener (lines 39-41). */
  function New(logger: Option<Logger>, commands: seq<Command>): (ch: SimpleChain)
    ensures ch.commands == commands && ch.listener.None?
    ensures logger.None? ==> ch.logger == DefaultLogger
    ensures logger.Some? ==> ch.logger == logger.value
  {
    NewWithListener(logger, None, commands)
  }

  /** The constructor (lines 43-47): a null logger is replaced by the default logger. */
  function NewWithListener(logger: Option<Logger>, listener: Option<Listener>, commands: seq<Command>): (ch: SimpleChain)
    ensures ch.commands == commands && ch.listener == listener
    ensures logger.None? ==> ch.logger == DefaultLogger
    ensures logger.Some? ==> ch.logger == logger.value
  {
    SimpleChain(if logger.None? then DefaultLogger else logger.value, listener, commands)
  }

  // ---------------------------------------------------------------- notifications

  /**
   * `logError`, called with the method name `Tag(p)`: a Recorder records the
   * call, then throws if its script says so.
   */
  function LogError(g: Logger, p: Phase, c: Command, e: Error): (r: Reaction)
    ensures g.DefaultLogger? ==> r == Reaction([], Normal)
    ensures g.Recorder? ==> r.trace == [Log(Tag(p), c, e)]
    ensures r.completion.Thrown? <==> g.Failure(p, c.name).Some?
    ensures r.completion.Thrown? ==> r.completion.error == g.Failure(p, c.name).value
  {
    var t := if g.Recorder? then [Log(Tag(p), c, e)] else [];
    match g.Failure(p, c.name)
    case None => Reaction(t, Normal)
    case Some(thrown) => Reaction(t, Thrown(thrown))
  }

  /** What a Recorder shows of a listener exception `err`, if there was one, handed to it in phase `p`. */
  function Logged(g: Logger, p: Phase, c: Command, err: Option<Error>): seq<Event> {
    if g.Recorder? && err.Some? then [Log(Tag(p), c, err.value)] else []
  }

  /**
   * `notifyCommandStarted`: an exception from the listener is handed to the
   * logger, tagged "commandStarted", and swallowed; only the logger's own
   * exception escapes.
   */
  function NotifyStarted(ch: SimpleChain, c: Command): (r: Reaction)
    ensures ch.listener.None? ==> r == Reaction([], Normal)
    ensures ch.listener.Some? ==>
              r.trace == [Started(c)] + Logged(ch.logger, StartedPhase, c, ch.listener.value.StartedFailure(c.name))
    ensures r.completion.Thrown? <==>
              && ch.listener.Some? && ch.listener.value.StartedFailure(c.name).Some?
              && ch.logger.Failure(StartedPhase, c.name).Some?
    ensures r.completion.Thrown? ==> ch.logger.Failure(StartedPhase, c.name) == Some(r.completion.error)
  {
    match ch.listener
    case None => Reaction([], Normal)
    case Some(l) =>
      match l.StartedFailure(c.name)
      case None => Reaction([Started(c)], Normal)
      case Some(e) =>
        var lg := LogError(ch.logger, StartedPhase, c, e);
        Reaction([Started(c)] + lg.trace, lg.completion)
  }

  /** `notifyCommandFinished`, which also hands the listener the command's error or null. */
  function NotifyFinished(ch: SimpleChain, c: Command, errorInCommand: Option<Error>): (r: Reaction)
    ensures ch.listener.None? ==> r == Reaction([], Normal)
    ensures ch.listener.Some? ==>
              r.trace == [Finished(c, errorInCommand)]
                         + Logged(ch.logger, FinishedPhase, c, ch.listener.value.FinishedFailure(c.name))
    ensures r.completion.Thrown? <==>
              && ch.listener.Some? && ch.listener.value.FinishedFailure(c.name).Some?
              && ch.logger.Failure(FinishedPhase, c.name).Some?
    ensures r.completion.Thrown? ==> ch.logger.Failure(FinishedPhase, c.name) == Some(r.completion.error)
  {
    match ch.listener
    case None => Reaction([], Normal)
    case Some(l) =>
      match l.FinishedFailure(c.name)
      case None => Reaction([Finished(c, errorInCommand)], Normal)
      case Some(e) =>
        var lg := LogError(ch.logger, FinishedPhase, c, e);
        Reaction([Finished(c, errorInCommand)] + lg.trace, lg.completion)
  }

  // ---------------------------------------------------------------- the executor, as a specification

  /** The whole of `execute` (lines 49-52). */
  function RunChain(ch: SimpleChain, ctx: Journal): Run
    decreases ch
  {
    RunCommands(ch, ch.commands, ctx)
  }

  /** The loop of `executeCommands` (lines 59-75) over the commands `cs`. */
  function RunCommands(ch: SimpleChain, cs: seq<Command>, ctx: Journal): Run
    decreases cs
  {
    if cs == [] then Run([], ctx, Normal)
    else
      var s := Step(ch, cs[0], ctx);
      if s.completion.Thrown? then s else Prefix(s.trace, RunCommands(ch, cs[1..], s.ctx))
  }

  /** One iteration of the loop: lines 60-74 for command `c`. */
  function Step(ch: SimpleChain, c: Command, ctx: Journal): Run
    decreases c, 1
  {
    var started := NotifyStarted(ch, c);
    if started.completion.Thrown? then Run(started.trace, ctx, started.completion)
    else
      var x := ExecuteCommand(c, ctx);
      var rest :=
        match x.completion
        case Normal => Finally(ch, c, x.ctx, None, Normal)
        case Thrown(e) =>
          var lg := LogError(ch.logger, ExecutePhase, c, e);
          if lg.completion.Thrown? then
            // the logger threw: errorInCommand is still null
            Prefix(lg.trace, Finally(ch, c, x.ctx, None, lg.completion))
          else
            Prefix(lg.trace, Finally(ch, c, x.ctx, Some(e), x.completion));
      Prefix(started.trace + x.trace, rest)
  }

  /**
   * The `finally` block (lines 69-74) entered with exception or normal
   * completion `pending`: an exception from the finished notification or from
   * `revert` replaces `pending`.
   */
  function Finally(ch: SimpleChain, c: Command, ctx: Journal, errorInCommand: Option<Error>, pending: Completion): Run {
    var f := NotifyFinished(ch, c, errorInCommand);
    if f.completion.Thrown? then Run(f.trace, ctx, f.completion)
    else if errorInCommand.None? then Run(f.trace, ctx, pending)
    else
      var o := Revert(c, ctx);
      Run(f.trace + [Reverted(c)], o.ctx, if o.completion.Thrown? then o.completion else pending)
  }

  /** `command.execute(context)`: a scripted command, or a nested chain. */
  function ExecuteCommand(c: Command, ctx: Journal): Run
    decreases c, 0
  {
    match c
    case Leaf(_, _, _, _) =>
      var o := ExecuteLeaf(c, ctx);
      Run([Exec(c)], o.ctx, o.completion)
    case Sub(_, inner) =>
      Prefix([Exec(c)], RunChain(inner, ctx))
  }

  // ---------------------------------------------------------------- the executor

  /** The caller's context object, which every command of an execution is handed. */
  class Context {
    var state: Journal

    constructor (initial: Journal)
      ensures state == initial
    {
      state := initial;
    }
  }

  /** `execute` (lines 49-52). */
  method Execute(ch: SimpleChain, ctx: Context) returns (trace: seq<Event>, completion: Completion)
    modifies ctx
    decreases ch
    ensures Run(trace, ctx.state, completion) == RunChain(ch, old(ctx.state))
  {
    trace, completion := ExecuteCommands(ch, ch.commands, ctx);
  }

  /** `executeCommands` (lines 54-76): the loop. */
  method ExecuteCommands(ch: SimpleChain, cs: seq<Command>, ctx: Context) returns (trace: seq<Event>, completion: Completion)
    modifies ctx
    decreases cs
    ensures Run(trace, ctx.state, completion) == RunCommands(ch, cs, old(ctx.state))
  {
    trace, completion := [], Normal;
    var i := 0;
    while i < |cs|
      invariant 0 <= i <= |cs|
      invariant RunCommands(ch, cs, old(ctx.state)) == Prefix(trace, RunCommands(ch, cs[i..], ctx.state))
      invariant completion == Normal
      decreases |cs| - i
    {
      assert cs[i..][0] == cs[i] && cs[i..][1..] == cs[i + 1..];
      var t, c := ExecuteOne(ch, cs[i], ctx);
      trace := trace + t;
      if c.Thrown? {
        completion := c;
        return;
      }
      i := i + 1;
    }
  }

  /** The body of the loop (lines 60-68) for `command`. */
  method ExecuteOne(ch: SimpleChain, command: Command, ctx: Context) returns (trace: seq<Event>, completion: Completion)
    modifies ctx
    decreases command, 1
    ensures Run(trace, ctx.state, completion) == Step(ch, command, old(ctx.state))
  {
    // line 60
    var started := NotifyStarted(ch, command);
    trace := started.trace;
    if started.completion.Thrown? {
      completion := started.completion;
      return;
    }
    var errorInCommand: Option<Error> := None;
    var pending := Normal;
    // try: line 64
    var t, c := CommandExecute(command, ctx);
    var caught: seq<Event> := [];
    if c.Thrown? {
      // catch: lines 66-68
      var logged := LogError(ch.logger, ExecutePhase, command, c.error);
      caught := logged.trace;
      if logged.completion.Thrown? {
        pending := logged.completion;
      } else {
        errorInCommand := Some(c.error);
        pending := c;
      }
    }
    var tf;
    tf, completion := FinallyBlock(ch, command, ctx, errorInCommand, pending);
    trace := (trace + t) + (caught + tf);
  }

  /** The `finally` block (lines 69-74), entered with `pending` on its way out. */
  method FinallyBlock(ch: SimpleChain, command: Command, ctx: Context, errorInCommand: Option<Error>, pending: Completion)
    returns (trace: seq<Event>, completion: Completion)
    modifies ctx
    ensures Run(trace, ctx.state, completion) == Finally(ch, command, old(ctx.state), errorInCommand, pending)
  {
    var finished := NotifyFinished(ch, command, errorInCommand);
    trace, completion := finished.trace, pending;
    if finished.completion.Thrown? {
      completion := finished.completion;
      return;
    }
    if errorInCommand.Some? {
      trace := trace + [Reverted(command)];
      var o := Revert(command, ctx.state);
      ctx.state := o.ctx;
      if o.completion.Thrown? {
        completion := o.completion;
      }
    }
  }

  /** The call `command.execute(context)`; a nested chain runs its own `execute`. */
  method CommandExecute(c: Command, ctx: Context) returns (trace: seq<Event>, completion: Completion)
    modifies ctx
    decreases c, 0
    ensures Run(trace, ctx.state, completion) == ExecuteCommand(c, old(ctx.state))
  {
    match c
    case Leaf(_, _, _, _) =>
      var o := ExecuteLeaf(c, ctx.state);
      ctx.state := o.ctx;
      trace, completion := [Exec(c)], o.completion;
    case Sub(_, inner) =>
      var t, r := Execute(inner, ctx);
      trace, completion := [Exec(c)] + t, r;
  }
}
