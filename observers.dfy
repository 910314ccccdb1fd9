/**
 * The collaborators that observe a chain: the command listener and the
 * listener error logger (the `ListenerErrorLogger` interface and its default
 * implementation in SimpleChain.java). Their behaviour is scripted: a script
 * says for which command a callback throws, and what it throws.
 */
module Observers {
  import opened Wrappers

  /** An exception object, identified by its identity. */
  datatype Error = Error(id: nat)

  /** How a Java call completes: normally, or abruptly with an exception. */
  datatype Completion = Normal | Thrown(error: Error)

  /** The phase a logged error comes from; `Tag` is the string the source passes. */
  datatype Phase = StartedPhase | ExecutePhase | FinishedPhase

  function Tag(p: Phase): (s: string)
    ensures s == "commandStarted" <==> p == StartedPhase
    ensures s == "execute" <==> p == ExecutePhase
    ensures s == "commandFinished" <==> p == FinishedPhase
  {
    match p
    case StartedPhase => "commandStarted"
    case ExecutePhase => "execute"
    case FinishedPhase => "commandFinished"
  }

  /**
   * A command listener: `commandStarted` throws `startedFailures[n]` for the
   * command named `n` when that key is present, `commandFinished` likewise.
   */
  datatype Listener = Listener(startedFailures: map<nat, Error>, finishedFailures: map<nat, Error>) {

    function StartedFailure(name: nat): (r: Option<Error>)
      ensures r.Some? <==> name in startedFailures
      ensures r.Some? ==> r.value == startedFailures[name]
    {
      if name in startedFailures then Some(startedFailures[name]) else None
    }

    function FinishedFailure(name: nat): (r: Option<Error>)
      ensures r.Some? <==> name in finishedFailures
      ensures r.Some? ==> r.value == finishedFailures[name]
    {
      if name in finishedFailures then Some(finishedFailures[name]) else None
    }
  }

  /** A listener whose callbacks never throw. */
  const SILENT_LISTENER := Listener(map[], map[])

  /**
   * An error logger. `DefaultLogger` stands for `DefaultListenerErrorLogger`:
   * it writes to `java.util.logging`, which this model leaves out, so it
   * records nothing and never throws. `Recorder` records every call in the
   * trace and then throws `failures[(phase, n)]` when that key is present.
   */
  datatype Logger = DefaultLogger | Recorder(failures: map<(Phase, nat), Error>) {

    function Failure(p: Phase, name: nat): (r: Option<Error>)
      ensures DefaultLogger? ==> r.None?
      ensures Recorder? ==> (r.Some? <==> (p, name) in failures)
      ensures r.Some? ==> Recorder? && r.value == failures[(p, name)]
    {
      match this
      case DefaultLogger => None
      case Recorder(failures) => if (p, name) in failures then Some(failures[(p, name)]) else None
    }
  }
}
