/** Traces of signals, and the automata that accept them. */
module Traces {
  import opened Option

  /** Where the trace leads from the start; None if it is not accepted. */
  function PhaseAfter<P, S>(after: (P, S) -> Option<P>, start: P, trace: seq<S>): Option<P>
    decreases |trace|
  {
    if trace == [] then Some(start)
    else match PhaseAfter(after, start, trace[..|trace| - 1])
      case Some(phase) => after(phase, trace[|trace| - 1])
      case None => None
  }

  lemma PhaseExtends<P, S>(after: (P, S) -> Option<P>, start: P, trace: seq<S>, signal: S)
    ensures PhaseAfter(after, start, trace + [signal]) ==
            match PhaseAfter(after, start, trace) case Some(phase) => after(phase, signal) case None => None
  {
    assert (trace + [signal])[..|trace|] == trace;
  }

  lemma {:induction false} AcceptedPrefix<P, S>(after: (P, S) -> Option<P>, start: P, trace: seq<S>, n: nat)
    requires PhaseAfter(after, start, trace).Some? && n <= |trace|
    ensures PhaseAfter(after, start, trace[..n]).Some?
    ensures n < |trace| ==>
              && PhaseAfter(after, start, trace[..n + 1]).Some?
              && PhaseAfter(after, start, trace[..n + 1]) == after(PhaseAfter(after, start, trace[..n]).value, trace[n])
    decreases |trace| - n
  {
    if n < |trace| {
      AcceptedPrefix(after, start, trace, n + 1);
      assert trace[..n + 1][..n] == trace[..n];
    } else {
      assert trace[..n] == trace;
    }
  }

  function Count<S>(trace: seq<S>, test: S -> bool): nat {
    if trace == [] then 0
    else Count(trace[..|trace| - 1], test) + (if test(trace[|trace| - 1]) then 1 else 0)
  }

  /** An opening leads out of the phases without a connection, a closing back to them, and no other signal does. */
  ghost predicate Connects<P(!new), S(!new)>(
    after: (P, S) -> Option<P>, connected: P -> bool, opens: S -> bool, closes: S -> bool)
  {
    forall phase, signal :: after(phase, signal).Some? ==>
      && (opens(signal) ==> !connected(phase) && connected(after(phase, signal).value) && !closes(signal))
      && (closes(signal) ==> connected(phase) && !connected(after(phase, signal).value))
      && (!opens(signal) && !closes(signal) ==> connected(after(phase, signal).value) == connected(phase))
  }

  /** In a connected phase exactly one connection is open, in any other none is. */
  lemma {:induction false} ConnectionsBalance<P(!new), S(!new)>(
    after: (P, S) -> Option<P>, start: P, connected: P -> bool, opens: S -> bool, closes: S -> bool, trace: seq<S>)
    requires Connects(after, connected, opens, closes) && !connected(start)
    requires PhaseAfter(after, start, trace).Some?
    ensures Count(trace, opens) == Count(trace, closes) +
                                   (if connected(PhaseAfter(after, start, trace).value) then 1 else 0)
    decreases |trace|
  {
    if trace != [] {
      ConnectionsBalance(after, start, connected, opens, closes, trace[..|trace| - 1]);
    }
  }
}
