/** Seen from one worker, every interleaving of the system is a pass under some oracle, so the
    methods of the controller and the workers of the system are the same thing. */
module Observed {
  import opened Names
  import opened Cluster
  import opened Protocol
  import opened Pass
  import opened Phases
  import opened Convergence
  import Coherence
  import TokenAgreement

  /** What the worker of `k` met at its requests: the world, the fault, the chance. */
  datatype Seen = Seen(w: World, fault: Fault, choice: Choice)

  ghost function Witnessed(ns: string, s: System, es: seq<Event>, k: Key): seq<Seen>
    decreases |es|
  {
    if es == [] then []
    else
      var rest := Witnessed(ns, Next(ns, s, es[0]), es[1..], k);
      if es[0].Step? && es[0].key == k then [Seen(s.w, es[0].fault, es[0].choice)] + rest else rest
  }

  /** The pass of `k` under way in `s` ends, without a crash, with the last event. */
  ghost predicate Completes(ns: string, s: System, es: seq<Event>, k: Key)
    decreases |es|
  {
    && es != [] && !PCOf(s, k).Done? && es[0] != Crash(k)
    && (PCOf(Next(ns, s, es[0]), k).Done? ==> |es| == 1)
    && (!PCOf(Next(ns, s, es[0]), k).Done? ==> Completes(ns, Next(ns, s, es[0]), es[1..], k))
  }

  /** From its i-th request on, the oracle replays what was seen. */
  ghost predicate Replays(o: Oracle, i: nat, seen: seq<Seen>) {
    forall j :: 0 <= j < |seen| ==> ReplaysAt(o, i + j, seen[j])
  }

  ghost predicate ReplaysAt(o: Oracle, i: nat, x: Seen) {
    (forall w: World :: o.env(i, w) == x.w) && o.fault(i) == x.fault && o.choice(i) == x.choice
  }

  function Replay(seen: seq<Seen>): Oracle {
    Oracle((i: nat, w: World) => if i < |seen| then seen[i].w else w,
           (i: nat) => if i < |seen| then seen[i].fault else NoFault,
           (i: nat) => if i < |seen| then seen[i].choice else Choice("", "", false))
  }

  lemma OthersLeaveCounter(ns: string, s: System, e: Event, k: Key)
    requires !PCOf(s, k).Done? && e != Crash(k) && !(e.Step? && e.key == k)
    ensures PCOf(Next(ns, s, e), k) == PCOf(s, k)
  {
  }

  lemma OwnStep(ns: string, s: System, e: Event, k: Key)
    requires !PCOf(s, k).Done? && e.Step? && e.key == k
    ensures var (w', pc') := WorkerStep(ns, k, s.w, PCOf(s, k), e.fault, e.choice);
      Next(ns, s, e).w == w' && PCOf(Next(ns, s, e), k) == pc'
  {
  }

  lemma {:induction false} SeenRun(ns: string, s: System, es: seq<Event>, k: Key, o: Oracle, i: nat, w: World)
    requires Completes(ns, s, es, k) && Replays(o, i, Witnessed(ns, s, es, k))
    ensures var t := Exec(ns, s, es);
      var r := Run(ns, k, o, PCOf(s, k), w, i);
      r == Outcome(t.w, r.err, i + |Witnessed(ns, s, es, k)|) && PCOf(t, k) == Done(r.err)
    decreases |es|
  {
    var e, t, seen := es[0], Next(ns, s, es[0]), Witnessed(ns, s, es, k);
    if e.Step? && e.key == k {
      OwnStep(ns, s, e, k);
      assert ReplaysAt(o, i + 0, seen[0]) && o.env(i, w) == s.w;
      if PCOf(t, k).Done? {
        assert es[1..] == [];
      } else {
        ReplaysTail(o, i, seen);
        SeenRun(ns, t, es[1..], k, o, i + 1, t.w);
      }
    } else {
      OthersLeaveCounter(ns, s, e, k);
      SeenRun(ns, t, es[1..], k, o, i, w);
    }
  }

  lemma ReplaysTail(o: Oracle, i: nat, seen: seq<Seen>)
    requires Replays(o, i, seen) && seen != []
    ensures Replays(o, i + 1, seen[1..])
  {
    forall j | 0 <= j < |seen[1..]| ensures ReplaysAt(o, i + 1 + j, seen[1..][j]) {
      assert ReplaysAt(o, i + (j + 1), seen[j + 1]);
    }
  }

  /** Any pass that completes in a run of the system, however others interleave, ends in the world
      and with the error that the controller's method yields under the replaying oracle. */
  lemma InterleavedPassIsRun(ns: string, s: System, es: seq<Event>, k: Key, w: World)
    requires Completes(ns, s, es, k)
    ensures var r := Run(ns, k, Replay(Witnessed(ns, s, es, k)), PCOf(s, k), w, 0); var t := Exec(ns, s, es);
      r.w == t.w && PCOf(t, k) == Done(r.err)
  {
    var o := Replay(Witnessed(ns, s, es, k));
    assert Replays(o, 0, Witnessed(ns, s, es, k));
    SeenRun(ns, s, es, k, o, 0, w);
  }

  /** Left alone, the controller's method converges from any coherent, agreeing state if and only if
      its tokens are usable and it is ready, and a second call then changes nothing. */
  lemma UndisturbedPasses(ns: string, k: Key, o: Oracle, c: Choice, w: World, i: nat, osp: OspSpec)
    requires Calm(o, c) && k in w.mds && !w.mds[k].deleting && Served(ns, w, w.mds[k], osp)
    requires !c.broken && FreshName(w, k, c) && SelfApart(k)
    requires Coherence.Coherent(k, Coherence.ViewOf(w, k))
    requires TokenAgreement.Agree(TokenAgreement.TViewOf(w, k))
    ensures var r, w2 := Run(ns, k, o, ReadMD, w, i), Checked(w, k, osp);
      && (!r.err <==> TokensUsable(w, k) && Ready(w2, k, w2.mds[k], osp))
      && (!r.err ==>
            && Converged(r.w, k, osp)
            && var again := Run(ns, k, o, ReadMD, r.w, r.calls); again.w == r.w && !again.err)
  {
    CalmRun(ns, k, o, c, ReadMD, w, i);
    OnePassConverges(ns, k, w, osp, c);
    var r := Run(ns, k, o, ReadMD, w, i);
    CalmRun(ns, k, o, c, ReadMD, r.w, r.calls);
    if !r.err { SettledIsFixpoint(ns, k, r.w, osp, c); }
  }
}
