/**
 * Commands (Command.java) and chains (Chain.java, SimpleChain.java's fields).
 *
 * A command is stateless: everything it does is done to the context passed to
 * it. The context is caller-owned mutable state; the model records its state
 * as the journal of updates commands have made to it. A scripted command
 * appends its `writes` to the context and then completes normally or throws
 * `failure`. A chain is itself a command (`Sub`), so chains nest.
 */
module Commands {
  import opened Wrappers
  import opened Observers

  /** One update a command makes to the context. */
  type Write = int

  /** The state of a context: the updates made to it, oldest first. */
  type Journal = seq<Write>

  /** What `revert` does: the inherited no-op, or an override. */
  datatype Reverter = DefaultRevert | CustomRevert(undoWrites: seq<Write>, revertFailure: Option<Error>)

  datatype Command =
    | Leaf(name: nat, writes: seq<Write>, failure: Option<Error>, reverter: Reverter)
    | Sub(name: nat, chain: SimpleChain)

  /**
   * A SimpleChain's three final fields: the error logger (never null after
   * construction), the optional listener and the ordered command list.
   */
  datatype SimpleChain = SimpleChain(logger: Logger, listener: Option<Listener>, commands: seq<Command>)

  /** The context after a call into a command, and how the call completed. */
  datatype Outcome = Outcome(ctx: Journal, completion: Completion)

  /** `execute` of a scripted command: its writes, then its failure if it has one. */
  function ExecuteLeaf(c: Command, ctx: Journal): (r: Outcome)
    requires c.Leaf?
    ensures |r.ctx| == |ctx| + |c.writes|
    ensures r.ctx[..|ctx|] == ctx && r.ctx[|ctx|..] == c.writes
    ensures r.completion.Thrown? <==> c.failure.Some?
    ensures r.completion.Thrown? ==> r.completion.error == c.failure.value
  {
    Outcome(ctx + c.writes, if c.failure.Some? then Thrown(c.failure.value) else Normal)
  }

  /**
   * `revert`. The default does nothing; a chain does not override it, so
   * reverting a nested chain does nothing either. Only an overriding command
   * changes the context or throws (an unchecked exception: `revert` declares none).
   */
  function Revert(c: Command, ctx: Journal): (r: Outcome)
    ensures (c.Sub? || c.reverter.DefaultRevert?) ==> r == Outcome(ctx, Normal)
    ensures c.Leaf? && c.reverter.CustomRevert? ==>
              r.ctx == ctx + c.reverter.undoWrites
              && (r.completion.Thrown? <==> c.reverter.revertFailure.Some?)
              && (r.completion.Thrown? ==> r.completion.error == c.reverter.revertFailure.value)
  {
    match c
    case Sub(_, _) => Outcome(ctx, Normal)
    case Leaf(_, _, _, reverter) =>
      match reverter
      case DefaultRevert => Outcome(ctx, Normal)
      case CustomRevert(undoWrites, revertFailure) =>
        Outcome(ctx + undoWrites, if revertFailure.Some? then Thrown(revertFailure.value) else Normal)
  }
}
