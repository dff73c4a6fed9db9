/** State machines and their runs. */
module Machines {

  datatype Machine<!S, !M> = Machine(enabled: (S, M) -> bool, after: (S, M) -> S)

  predicate Run<S, M>(mc: Machine<S, M>, s: S, moves: seq<M>)
    decreases |moves|
  {
    moves == [] || (mc.enabled(s, moves[0]) && Run(mc, mc.after(s, moves[0]), moves[1..]))
  }

  function End<S, M>(mc: Machine<S, M>, s: S, moves: seq<M>): S
    decreases |moves|
  {
    if moves == [] then s else End(mc, mc.after(s, moves[0]), moves[1..])
  }

  /** What every enabled move keeps, every run keeps. */
  lemma {:induction false} Always<S(!new), M(!new)>(mc: Machine<S, M>, inv: S -> bool, s: S, moves: seq<M>)
    requires forall s, m :: inv(s) && mc.enabled(s, m) ==> inv(mc.after(s, m))
    requires inv(s) && Run(mc, s, moves)
    ensures inv(End(mc, s, moves))
    decreases |moves|
  {
    if moves != [] {
      Always(mc, inv, mc.after(s, moves[0]), moves[1..]);
    }
  }

  /** A list of states, each the outcome of an enabled move on the one before, is a run. */
  lemma {:induction false} Through<S, M>(mc: Machine<S, M>, ss: seq<S>, moves: seq<M>)
    requires |ss| == |moves| + 1
    requires forall i :: 0 <= i < |moves| ==> mc.enabled(ss[i], moves[i]) && mc.after(ss[i], moves[i]) == ss[i + 1]
    ensures Run(mc, ss[0], moves) && End(mc, ss[0], moves) == ss[|moves|]
    decreases |moves|
  {
    if moves != [] {
      Through(mc, ss[1..], moves[1..]);
    }
  }
}
