/** One pass of a worker from start to end, with interference and faults supplied by an oracle,
    and the failure-free special case in which nothing else moves. */
module Pass {
  import opened Names
  import opened Cluster
  import opened Protocol

  /** What the i-th request of a pass meets: others' moves before it, its fault, its chance. */
  datatype Oracle = Oracle(env: (nat, World) -> World, fault: nat -> Fault, choice: nat -> Choice)

  /** Final world, whether the pass reports an error, and how many requests were made in all. */
  datatype Outcome = Outcome(w: World, err: bool, calls: nat)

  function Run(ns: string, k: Key, o: Oracle, pc: PC, w: World, i: nat): Outcome
    decreases Rank(pc)
  {
    if pc.Done? then Outcome(w, pc.err, i)
    else
      var (w', pc') := WorkerStep(ns, k, o.env(i, w), pc, o.fault(i), o.choice(i));
      Run(ns, k, o, pc', w', i + 1)
  }

  /** The rest of a pass when no request fails and nobody else moves. */
  function Finish(ns: string, k: Key, pc: PC, w: World, c: Choice): (World, bool)
    decreases Rank(pc)
  {
    if pc.Done? then (w, pc.err)
    else
      var (w', pc') := WorkerStep(ns, k, w, pc, NoFault, c);
      Finish(ns, k, pc', w', c)
  }

  lemma OneStep(ns: string, k: Key, pc: PC, w: World, pc1: PC, w1: World, c: Choice)
    requires !pc.Done? && WorkerStep(ns, k, w, pc, NoFault, c) == (w1, pc1)
    ensures Finish(ns, k, pc, w, c) == Finish(ns, k, pc1, w1, c)
  {
  }

  ghost predicate Calm(o: Oracle, c: Choice) {
    && (forall i: nat, w: World :: o.env(i, w) == w)
    && (forall i: nat :: o.fault(i) == NoFault)
    && (forall i: nat :: o.choice(i) == c)
  }

  lemma {:induction false} CalmRun(ns: string, k: Key, o: Oracle, c: Choice, pc: PC, w: World, i: nat)
    requires Calm(o, c)
    ensures var r := Run(ns, k, o, pc, w, i); (r.w, r.err) == Finish(ns, k, pc, w, c)
    decreases Rank(pc)
  {
    if !pc.Done? {
      assert o.env(i, w) == w && o.fault(i) == NoFault && o.choice(i) == c;
      var (w', pc') := WorkerStep(ns, k, w, pc, NoFault, c);
      CalmRun(ns, k, o, c, pc', w', i + 1);
    }
  }

  /** No pass makes more than twenty-five requests, whatever happens to them. */
  lemma {:induction false} PassIsShort(ns: string, k: Key, o: Oracle, pc: PC, w: World, i: nat)
    ensures Run(ns, k, o, pc, w, i).calls <= i + Rank(pc) <= i + 25
    decreases Rank(pc)
  {
    if !pc.Done? {
      var (w', pc') := WorkerStep(ns, k, o.env(i, w), pc, o.fault(i), o.choice(i));
      PassIsShort(ns, k, o, pc', w', i + 1);
    }
  }
}
