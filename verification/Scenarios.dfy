/** Runs that show what the excluded faults do, what a pass achieves in a reachable state, and that
    a cleanup ends. */
module Scenarios {
  import opened Names
  import opened Cluster
  import opened Protocol
  import opened NoOrphans
  import opened Coherence
  import opened TokenLifetime
  import TokenAgreement
  import opened Pass
  import opened Phases
  import opened Convergence
  import Finalizers

  // ---------------------------------------------------------------- runs of one worker

  /** Where `n` undisturbed requests take a worker. */
  function Advance(ns: string, k: Key, pc: PC, w: World, c: Choice, n: nat): (World, PC)
    decreases n
  {
    if n == 0 || pc.Done? then (w, pc)
    else
      var (w', pc') := WorkerStep(ns, k, w, pc, NoFault, c);
      Advance(ns, k, pc', w', c, n - 1)
  }

  ghost function Requests(k: Key, c: Choice, n: nat): seq<Event> {
    if n == 0 then [] else [Step(k, NoFault, c)] + Requests(k, c, n - 1)
  }

  lemma {:induction false} SoloRun(ns: string, s: System, k: Key, pc: PC, c: Choice, n: nat)
    ensures var (w', pc') := Advance(ns, k, pc, s.w, c, n);
      Exec(ns, System(s.w, s.pcs[k := pc]), Requests(k, c, n)) == System(w', s.pcs[k := pc'])
    decreases n
  {
    var t := System(s.w, s.pcs[k := pc]);
    if n > 0 {
      var e := Step(k, NoFault, c);
      assert Requests(k, c, n)[1..] == Requests(k, c, n - 1);
      if pc.Done? {
        IdleRequests(ns, t, k, c, n);
      } else {
        var (w', pc') := WorkerStep(ns, k, s.w, pc, NoFault, c);
        StepTo(ns, s, k, c, pc);
        SoloRun(ns, System(w', s.pcs), k, pc', c, n - 1);
      }
    }
  }

  /** Requests of an idle worker do nothing. */
  lemma {:induction false} IdleRequests(ns: string, t: System, k: Key, c: Choice, n: nat)
    requires PCOf(t, k).Done?
    ensures Exec(ns, t, Requests(k, c, n)) == t
  {
    if n > 0 {
      assert Requests(k, c, n)[1..] == Requests(k, c, n - 1);
      IdleRequests(ns, t, k, c, n - 1);
    }
  }

  lemma StepTo(ns: string, s: System, k: Key, c: Choice, pc: PC)
    requires !pc.Done?
    ensures var (w', pc') := WorkerStep(ns, k, s.w, pc, NoFault, c);
      Next(ns, System(s.w, s.pcs[k := pc]), Step(k, NoFault, c)) == System(w', s.pcs[k := pc'])
  {
    var (w', pc') := WorkerStep(ns, k, s.w, pc, NoFault, c);
    assert s.pcs[k := pc][k := pc'] == s.pcs[k := pc'];
  }

  /** One request of a pass, seen from both accounts of it. */
  lemma {:induction false} OneRequest(ns: string, k: Key, pc: PC, w: World, c: Choice, n: nat)
      returns (w1: World, pc1: PC)
    requires !pc.Done? && Rank(pc) <= n
    ensures Rank(pc1) < Rank(pc) <= n
    ensures Finish(ns, k, pc, w, c) == Finish(ns, k, pc1, w1, c)
    ensures Advance(ns, k, pc, w, c, n) == Advance(ns, k, pc1, w1, c, n - 1)
  {
    var r := WorkerStep(ns, k, w, pc, NoFault, c);
    w1, pc1 := r.0, r.1;
    OneStep(ns, k, pc, w, pc1, w1, c);
  }

  /** Enough requests finish the pass. */
  lemma {:induction false} AdvanceFinishes(ns: string, k: Key, pc: PC, w: World, c: Choice, n: nat)
    requires Rank(pc) <= n
    ensures var (w', err) := Finish(ns, k, pc, w, c); Advance(ns, k, pc, w, c, n) == (w', Done(err))
    decreases n
  {
    if !pc.Done? {
      var w1, pc1 := OneRequest(ns, k, pc, w, c, n);
      AdvanceFinishes(ns, k, pc1, w1, c, n - 1);
    }
  }

  /** The first `n` requests of a pass. */
  ghost function Part(k: Key, c: Choice, n: nat): seq<Event> {
    [Begin(k)] + Requests(k, c, n)
  }

  lemma SoloPart(ns: string, s: System, k: Key, c: Choice, n: nat)
    requires PCOf(s, k).Done?
    ensures var (w', pc') := Advance(ns, k, ReadMD, s.w, c, n);
      Exec(ns, s, Part(k, c, n)) == System(w', s.pcs[k := pc'])
  {
    assert Next(ns, s, Begin(k)) == System(s.w, s.pcs[k := ReadMD]);
    assert Part(k, c, n)[1..] == Requests(k, c, n);
    SoloRun(ns, s, k, ReadMD, c, n);
  }

  /** A whole pass. */
  ghost function WholePass(k: Key, c: Choice): seq<Event> {
    Part(k, c, 25)
  }

  lemma SoloPass(ns: string, s: System, k: Key, c: Choice)
    requires PCOf(s, k).Done?
    ensures var (w', err) := Finish(ns, k, ReadMD, s.w, c);
      Exec(ns, s, WholePass(k, c)) == System(w', s.pcs[k := Done(err)])
  {
    SoloPart(ns, s, k, c, 25);
    AdvanceFinishes(ns, k, ReadMD, s.w, c, 25);
  }

  /** On a cluster no controller has touched, the first pass of a supported deployment succeeds if and
      only if the profile accepts its provisioning utility and its user data generates, and then it
      has converged; edge deployments included. */
  lemma FirstPassConverges(ns: string, s: System, k: Key, osp: OspSpec, c: Choice)
    requires Initial(s) && k in s.w.mds && !s.w.mds[k].deleting && Served(ns, s.w, s.w.mds[k], osp)
    requires SelfApart(k) && !c.broken
    ensures var md, t := s.w.mds[k], Exec(ns, s, WholePass(k, c));
      && (PCOf(t, k) == Done(false) <==> UtilityAccepted(md, osp) && Generatable(k, md, osp))
      && (PCOf(t, k) == Done(false) ==> Converged(t.w, k, osp))
  {
    var w, md := s.w, s.w.mds[k];
    assert TokensFor(w, BootstrapKey(k)) == map[];
    SoloPass(ns, s, k, c);
    OnePassConverges(ns, k, w, osp, c);
    AdoptedKeeps(w, k);
    assert Checked(w, k, osp) == Adopted(w, k);
  }

  /** From the start, over every run that does not harm `k`, whatever happens to other deployments: the
      next undisturbed pass of `k`, idle and supported, converges if and only if the world is ready. */
  lemma ReachablePassConverges(ns: string, keys: set<Key>, s: System, es: seq<Event>, k: Key, osp: OspSpec, c: Choice)
    requires Initial(s) && OwnCloud(keys, k) && OwnKube(keys, k) && Within(keys, s, es) && k in keys
    requires Coherence.Unharmed(ns, s, es, k) && TokenAgreement.Unharmed(ns, s, es, k)
    requires var t := Exec(ns, s, es);
      && PCOf(t, k).Done? && k in t.w.mds && !t.w.mds[k].deleting && Served(ns, t.w, t.w.mds[k], osp)
      && !c.broken && FreshName(t.w, k, c)
    ensures var t := Exec(ns, s, es); var w2 := Checked(t.w, k, osp); var u := Exec(ns, s, es + WholePass(k, c));
      && (PCOf(u, k) == Done(false) <==> Ready(w2, k, w2.mds[k], osp))
      && (PCOf(u, k) == Done(false) ==> Converged(u.w, k, osp))
  {
    ReachableState(ns, keys, s, es, k);
    IdlePassConverges(ns, Exec(ns, s, es), k, osp, c);
    ExecAppend(ns, s, es, WholePass(k, c));
  }

  lemma IdlePassConverges(ns: string, t: System, k: Key, osp: OspSpec, c: Choice)
    requires PCOf(t, k).Done? && k in t.w.mds && !t.w.mds[k].deleting && Served(ns, t.w, t.w.mds[k], osp)
    requires !c.broken && FreshName(t.w, k, c) && SelfApart(k) && TokensUsable(t.w, k)
    requires Coherent(k, ViewOf(t.w, k)) && TokenAgreement.Agree(TokenAgreement.TViewOf(t.w, k))
    ensures var w2 := Checked(t.w, k, osp); var u := Exec(ns, t, WholePass(k, c));
      && (PCOf(u, k) == Done(false) <==> Ready(w2, k, w2.mds[k], osp))
      && (PCOf(u, k) == Done(false) ==> Converged(u.w, k, osp))
  {
    OnePassConverges(ns, k, t.w, osp, c);
    SoloPass(ns, t, k, c);
  }

  lemma {:induction false} ReachableState(ns: string, keys: set<Key>, s: System, es: seq<Event>, k: Key)
    requires Initial(s) && OwnCloud(keys, k) && OwnKube(keys, k) && Within(keys, s, es) && k in keys
    requires Coherence.Unharmed(ns, s, es, k) && TokenAgreement.Unharmed(ns, s, es, k)
    requires var t := Exec(ns, s, es); PCOf(t, k).Done? && k in t.w.mds && !t.w.mds[k].deleting
    ensures var w := Exec(ns, s, es).w;
      && SelfApart(k) && TokensUsable(w, k)
      && Coherent(k, ViewOf(w, k)) && TokenAgreement.Agree(TokenAgreement.TViewOf(w, k))
  {
    assert CloudFree(k, k) && KubeFree(k, k);
    CoherentRuns(ns, keys, s, es, k);
    TokenAgreement.AgreementRuns(ns, keys, s, es, k);
    ReachableTokensUsable(ns, keys, s, es, k);
  }

  lemma ReachableTokensUsable(ns: string, keys: set<Key>, s: System, es: seq<Event>, k: Key)
    requires Initial(s) && OwnKey(keys, k) && Within(keys, s, es)
    ensures TokensUsable(Exec(ns, s, es).w, k)
  {
    var w := Exec(ns, s, es).w;
    TokenAgreement.OneTokenPerKey(ns, keys, s, es, k);
    forall n | n in TokensFor(w, BootstrapKey(k))
      ensures w.tokens[n].expiry.Some?
    {
      NoTokenOutlivesTheHour(ns, s, es, n);
    }
  }

  /** A pass that crashes after `n` requests. */
  lemma CrashedPart(ns: string, s: System, k: Key, c: Choice, n: nat)
    requires PCOf(s, k).Done?
    ensures Exec(ns, s, Part(k, c, n) + [Crash(k)])
         == System(Advance(ns, k, ReadMD, s.w, c, n).0, s.pcs[k := Done(true)])
  {
    var (w', pc') := Advance(ns, k, ReadMD, s.w, c, n);
    SoloPart(ns, s, k, c, n);
    ExecAppend(ns, s, Part(k, c, n), [Crash(k)]);
    assert s.pcs[k := pc'][k := Done(true)] == s.pcs[k := Done(true)];
    ExecOne(ns, System(w', s.pcs[k := pc']), Crash(k));
  }

  lemma ExecOne(ns: string, s: System, e: Event)
    ensures Exec(ns, s, [e]) == Next(ns, s, e)
  {
    assert [e][1..] == [];
  }

  // ---------------------------------------------------------------- an interrupted rotation

  /** With the OSC gone and a secret left behind, the next pass skips the rotation: it makes a new
      OSC, keeps the old secret, and from then on every pass leaves things as they are. */
  lemma StaleSecretStays(ns: string, k: Key, w: World, osp: OspSpec, c: Choice, later: Choice)
    requires k in w.mds && !w.mds[k].deleting && Served(ns, w, w.mds[k], osp)
    requires TokenReady(w, k, c) && KubeTyped(w, k) && SelfApart(k) && !later.broken
    requires OscName(k) !in w.oscs && ProvName(k) in w.secrets
    requires Ready(w, k, w.mds[k], osp)
    ensures var (w', err) := Finish(ns, k, ReadMD, w, c);
      && !err
      && Settled(w', k, osp)
      && w'.oscs[OscName(k)].stamp == StampOf(w.mds[k], osp)
      && w'.secrets[ProvName(k)] == w.secrets[ProvName(k)]
      && Finish(ns, k, ReadMD, w', later) == (w', false)
  {
    var w2 := Checked(w, k, osp);
    FailureFreePass(ns, k, w, osp, c);
    CheckedKeeps(w, k, osp);
    AdoptedKeeps(w, k);
    assert w2 == Adopted(w, k);
    assert Ready(w2, k, w2.mds[k], osp);
    OutcomeSettled(w2, k, osp, c);
    OutcomeView(w2, k, w2.mds[k], osp, c);
    var w' := PassOutcome(w2, k, w2.mds[k], osp, c);
    OutcomeKeepsServed(ns, w2, k, osp, c);
    SettledIsFixpoint(ns, k, w', osp, later);
  }

  /** An edit, and a pass that crashes right after it deleted the OSC. */
  ghost function CutRotation(k: Key, edited: MachineDeployment, c: Choice): seq<Event> {
    [UserEdits(k, edited)] + (Part(k, c, 4) + [Crash(k)])
  }

  function EditedWorld(w: World, k: Key, edited: MachineDeployment): World {
    w.(mds := w.mds[k := edited.(deleting := false, rv := w.rv)], rv := w.rv + 1)
  }

  function CutWorld(w: World, k: Key, edited: MachineDeployment): World {
    EditedWorld(w, k, edited).(oscs := w.oscs - {OscName(k)})
  }

  lemma RotationStarts(ns: string, k: Key, w: World, osp: OspSpec, c: Choice)
    requires Stable(w, k) && Served(ns, w, w.mds[k], osp)
    requires OscName(k) in w.oscs && w.oscs[OscName(k)].stamp != StampOf(w.mds[k], osp)
    ensures Advance(ns, k, ReadMD, w, c, 4)
         == (w.(oscs := w.oscs - {OscName(k)}), RotDel(w.mds[k], osp, ProvSlot))
  {
    var md := w.mds[k];
    assert WorkerStep(ns, k, w, ReadMD, NoFault, c) == (w, FetchOSP(md));
    assert WorkerStep(ns, k, w, FetchOSP(md), NoFault, c) == (w, RotGet(md, osp));
    assert WorkerStep(ns, k, w, RotGet(md, osp), NoFault, c) == (w, RotDel(md, osp, OscSlot));
    DeleteOscStep(ns, k, w, md, osp, c);
    FourSteps(ns, k, w, c, FetchOSP(md), RotGet(md, osp), RotDel(md, osp, OscSlot),
              w.(oscs := w.oscs - {OscName(k)}), RotDel(md, osp, ProvSlot));
  }

  lemma FourSteps(ns: string, k: Key, w: World, c: Choice, pc1: PC, pc2: PC, pc3: PC, w': World, pc4: PC)
    requires !pc1.Done? && !pc2.Done? && !pc3.Done?
    requires WorkerStep(ns, k, w, ReadMD, NoFault, c) == (w, pc1)
    requires WorkerStep(ns, k, w, pc1, NoFault, c) == (w, pc2)
    requires WorkerStep(ns, k, w, pc2, NoFault, c) == (w, pc3)
    requires WorkerStep(ns, k, w, pc3, NoFault, c) == (w', pc4)
    ensures Advance(ns, k, ReadMD, w, c, 4) == (w', pc4)
  {
    assert Advance(ns, k, pc3, w, c, 1) == (w', pc4);
    assert Advance(ns, k, pc2, w, c, 2) == (w', pc4);
  }

  lemma CutRotationRuns(ns: string, s: System, k: Key, osp: OspSpec, edited: MachineDeployment, c: Choice)
    requires k in s.w.mds && !s.w.mds[k].deleting && PCOf(s, k).Done? && FINALIZER in edited.finalizers
    requires Served(ns, s.w, edited, osp)
    requires OscName(k) in s.w.oscs && s.w.oscs[OscName(k)].stamp != StampOf(edited, osp)
    ensures Exec(ns, s, CutRotation(k, edited, c)) == System(CutWorld(s.w, k, edited), s.pcs[k := Done(true)])
  {
    var t := System(EditedWorld(s.w, k, edited), s.pcs);
    assert Next(ns, s, UserEdits(k, edited)) == t;
    assert CutRotation(k, edited, c)[1..] == Part(k, c, 4) + [Crash(k)];
    CrashedPart(ns, t, k, c, 4);
    RotationStarts(ns, k, t.w, osp, c);
  }

  /** The rotation window is real: from every converged idle deployment, any edit that changes the
      stamp and one crash between the rotation deletes lead to a state that later passes report as
      fine and never change, with a secret of the old stamp under the new OSC. */
  lemma InterruptedRotationSticks(ns: string, s: System, k: Key, osp: OspSpec, edited: MachineDeployment,
                                  c: Choice, later: Choice)
    requires Converged(s.w, k, osp) && PCOf(s, k).Done? && SelfApart(k)
    requires FINALIZER in edited.finalizers && Served(ns, s.w, edited, osp)
    requires s.w.oscs[OscName(k)].stamp != StampOf(edited, osp)
    requires UtilityAccepted(edited, osp) && edited.template.strict && !EdgeBlocked(s.w, k, edited)
    requires !c.broken && !later.broken
    ensures var cut := CutRotation(k, edited, c);
      var t := Exec(ns, s, cut + WholePass(k, c));
      && Settled(t.w, k, osp) && !Coherent(k, ViewOf(t.w, k))
      && PCOf(t, k) == Done(false)
      && Finish(ns, k, ReadMD, t.w, later) == (t.w, false)
  {
    var w := CutWorld(s.w, k, edited);
    CutRotationRuns(ns, s, k, osp, edited, c);
    var t := System(w, s.pcs[k := Done(true)]);
    ExecAppend(ns, s, CutRotation(k, edited, c), WholePass(k, c));
    SoloPass(ns, t, k, c);
    CutWorldReady(s.w, k, osp, edited, c);
    StaleSecretStays(ns, k, w, osp, c, later);
  }

  lemma CutWorldReady(w: World, k: Key, osp: OspSpec, edited: MachineDeployment, c: Choice)
    requires Converged(w, k, osp) && SelfApart(k) && !c.broken
    requires UtilityAccepted(edited, osp) && edited.template.strict && !EdgeBlocked(w, k, edited)
    ensures var w' := CutWorld(w, k, edited);
      && TokenReady(w', k, c) && Ready(w', k, w'.mds[k], osp)
      && ProvName(k) in w'.secrets && w'.secrets[ProvName(k)].CloudConfig?
      && w'.secrets[ProvName(k)].stamp == w.oscs[OscName(k)].stamp
  {
    var w' := CutWorld(w, k, edited);
    assert TokensFor(w', BootstrapKey(k)) == TokensFor(w, BootstrapKey(k));
    assert ViewOf(w, k).prov == Some(w.secrets[ProvName(k)]);
  }

  // ---------------------------------------------------------------- an interrupted token request

  /** A pass that finds a token never writes the kubeconfig: without a rotation a stale kubeconfig
      stays stale for as long as the token lives. */
  lemma StaleKubeconfigStays(ns: string, k: Key, w: World, osp: OspSpec, c: Choice)
    requires Stable(w, k) && Served(ns, w, w.mds[k], osp) && SelfApart(k)
    requires Kept(w, k, w.mds[k], osp) && Ready(w, k, w.mds[k], osp)
    requires TokenReady(w, k, c) && |TokensFor(w, BootstrapKey(k))| == 1
    requires KubeName(k) in w.secrets && w.secrets[KubeName(k)].Kubeconfig?
    requires !TokenAgreement.Agree(TokenAgreement.TViewOf(w, k))
    ensures var (w', err) := Finish(ns, k, ReadMD, w, c);
      && !err && Settled(w', k, osp)
      && w'.secrets[KubeName(k)] == w.secrets[KubeName(k)]
      && !TokenAgreement.Agree(TokenAgreement.TViewOf(w', k))
  {
    FailureFreePass(ns, k, w, osp, c);
    assert Checked(w, k, osp) == w;
    OutcomeSettled(w, k, osp, c);
    var (w1, text, renewed) := TokenOutcome(w, k, c);
    TokenSecured(w, k, c);
    assert KubeOutcome(w1, k, text, renewed) == w1;
    OscKeepsSecrets(w1, k, w.mds[k], osp, text);
    ProvisionedView(w1, k, w.mds[k], osp, w1.oscs[OscName(k)]);
    var w' := PassOutcome(w, k, w.mds[k], osp, c);
    KubeTextUnchanged(w, k, c, w');
  }

  lemma KubeTextUnchanged(w: World, k: Key, c: Choice, w': World)
    requires TokenReady(w, k, c) && |TokensFor(w, BootstrapKey(k))| == 1
    requires KubeName(k) in w.secrets && w.secrets[KubeName(k)].Kubeconfig?
    requires w'.tokens == TokenOutcome(w, k, c).0.tokens
    requires KubeName(k) in w'.secrets && w'.secrets[KubeName(k)] == w.secrets[KubeName(k)]
    requires !TokenAgreement.Agree(TokenAgreement.TViewOf(w, k))
    ensures !TokenAgreement.Agree(TokenAgreement.TViewOf(w', k))
  {
    var tokens := TokensFor(w, BootstrapKey(k));
    OneKey(tokens);
    var n := OnlyToken(tokens);
    assert n in TokenAgreement.TViewOf(w', k).tokens;
    assert Text(w'.tokens[n]) == Text(w.tokens[n]);
  }

  /** A pass of a deployment without a token reaches the create with its fourth request. */
  lemma TokenStarts(ns: string, k: Key, w: World, osp: OspSpec, c: Choice)
    requires Stable(w, k) && Served(ns, w, w.mds[k], osp)
    requires OscName(k) in w.oscs ==> Kept(w, k, w.mds[k], osp)
    requires TokensFor(w, BootstrapKey(k)) == map[]
    ensures Advance(ns, k, ReadMD, w, c, 4) == (w, TokenCreate(w.mds[k], osp))
  {
    var md := w.mds[k];
    assert WorkerStep(ns, k, w, ReadMD, NoFault, c) == (w, FetchOSP(md));
    assert WorkerStep(ns, k, w, FetchOSP(md), NoFault, c) == (w, RotGet(md, osp));
    assert WorkerStep(ns, k, w, RotGet(md, osp), NoFault, c) == (w, TokenList(md, osp));
    assert WorkerStep(ns, k, w, TokenList(md, osp), NoFault, c) == (w, TokenCreate(md, osp));
    FourSteps(ns, k, w, c, FetchOSP(md), RotGet(md, osp), TokenList(md, osp), w, TokenCreate(md, osp));
  }

  function WithToken(w: World, k: Key, c: Choice): World {
    w.(tokens := w.tokens[TokenSecretName(c) := NewToken(k, w.clock, c).(rv := w.rv)], rv := w.rv + 1)
  }

  lemma {:induction false} TokenCreated(ns: string, k: Key, w: World, osp: OspSpec, c: Choice)
    requires Stable(w, k) && Served(ns, w, w.mds[k], osp)
    requires OscName(k) in w.oscs ==> Kept(w, k, w.mds[k], osp)
    requires TokensFor(w, BootstrapKey(k)) == map[] && TokenSecretName(c) !in w.tokens
    ensures Advance(ns, k, ReadMD, w, c, 5).0 == WithToken(w, k, c)
  {
    TokenStarts(ns, k, w, osp, c);
    OneMore(ns, k, ReadMD, w, c, 4);
    CreationStep(ns, k, w, osp, w.mds[k], c);
  }

  lemma CreationStep(ns: string, k: Key, w: World, osp: OspSpec, md: MachineDeployment, c: Choice)
    requires TokenSecretName(c) !in w.tokens
    ensures WorkerStep(ns, k, w, TokenCreate(md, osp), NoFault, c).0 == WithToken(w, k, c)
  {
  }

  lemma {:induction false} OneMore(ns: string, k: Key, pc: PC, w: World, c: Choice, n: nat)
    ensures var (w', pc') := Advance(ns, k, pc, w, c, n);
      !pc'.Done? ==> Advance(ns, k, pc, w, c, n + 1) == WorkerStep(ns, k, w', pc', NoFault, c)
    decreases n
  {
    if n > 0 && !pc.Done? {
      var (w', pc') := WorkerStep(ns, k, w, pc, NoFault, c);
      OneMore(ns, k, pc', w', c, n - 1);
    } else if !pc.Done? {
      var (w', pc') := WorkerStep(ns, k, w, pc, NoFault, c);
      assert Advance(ns, k, pc', w', c, 0) == (w', pc');
    }
  }

  /** The token expires, the next pass makes a new one and crashes before it writes the kubeconfig. */
  ghost function CutToken(k: Key, expired: string, c: Choice): seq<Event> {
    [DropToken(expired)] + (Part(k, c, 5) + [Crash(k)])
  }

  function Dropped(w: World, n: string): World {
    w.(tokens := w.tokens - {n})
  }

  lemma CutTokenRuns(ns: string, s: System, k: Key, osp: OspSpec, expired: string, c: Choice)
    requires Stable(s.w, k) && PCOf(s, k).Done? && Served(ns, s.w, s.w.mds[k], osp)
    requires Kept(s.w, k, s.w.mds[k], osp) && TokenSecretName(c) !in s.w.tokens
    requires TokensFor(Dropped(s.w, expired), BootstrapKey(k)) == map[]
    ensures Exec(ns, s, CutToken(k, expired, c))
         == System(WithToken(Dropped(s.w, expired), k, c), s.pcs[k := Done(true)])
  {
    var t := System(Dropped(s.w, expired), s.pcs);
    assert Next(ns, s, DropToken(expired)) == t;
    assert CutToken(k, expired, c)[1..] == Part(k, c, 5) + [Crash(k)];
    CrashedPart(ns, t, k, c, 5);
    TokenCreated(ns, k, t.w, osp, c);
  }

  /** The token window is real: from every converged idle deployment, the expiry of its token and
      one crash after the next pass made a new one lead to a settled state in which kubeconfig and
      token differ; a rotation would repair it (RotationHeals). */
  lemma InterruptedTokenSticks(ns: string, s: System, k: Key, osp: OspSpec, expired: string, c: Choice, later: Choice)
    requires Converged(s.w, k, osp) && PCOf(s, k).Done? && SelfApart(k)
    requires Served(ns, s.w, s.w.mds[k], osp)
    requires expired in TokensFor(s.w, BootstrapKey(k)) && TokenSecretName(c) !in s.w.tokens
    requires c.id + "." + c.secret != s.w.secrets[KubeName(k)].token
    requires !c.broken && !later.broken
    ensures var w := WithToken(Dropped(s.w, expired), k, c);
      var t := Exec(ns, s, CutToken(k, expired, c) + WholePass(k, later));
      && Settled(t.w, k, osp) && !TokenAgreement.Agree(TokenAgreement.TViewOf(t.w, k))
      && PCOf(t, k) == Done(false)
  {
    var w := WithToken(Dropped(s.w, expired), k, c);
    OneTokenDropped(s.w, k, expired);
    CutTokenRuns(ns, s, k, osp, expired, c);
    ExecAppend(ns, s, CutToken(k, expired, c), WholePass(k, later));
    SoloPass(ns, System(w, s.pcs[k := Done(true)]), k, later);
    ReplacedReady(Dropped(s.w, expired), k, c, later);
    StaleKubeconfigStays(ns, k, w, osp, later);
  }

  lemma OneTokenDropped(w: World, k: Key, n: string)
    requires |TokensFor(w, BootstrapKey(k))| == 1 && n in TokensFor(w, BootstrapKey(k))
    ensures TokensFor(Dropped(w, n), BootstrapKey(k)) == map[]
  {
    OneKey(TokensFor(w, BootstrapKey(k)));
    var rest := TokensFor(Dropped(w, n), BootstrapKey(k));
    assert forall m :: m in rest ==> m in TokensFor(w, BootstrapKey(k)) && m != n;
  }

  lemma ReplacedReady(w: World, k: Key, c: Choice, later: Choice)
    requires TokensFor(w, BootstrapKey(k)) == map[] && !later.broken
    requires KubeName(k) in w.secrets && w.secrets[KubeName(k)].Kubeconfig?
    requires c.id + "." + c.secret != w.secrets[KubeName(k)].token
    ensures var w' := WithToken(w, k, c);
      && TokenReady(w', k, later) && |TokensFor(w', BootstrapKey(k))| == 1
      && !TokenAgreement.Agree(TokenAgreement.TViewOf(w', k))
  {
    var w', n := WithToken(w, k, c), TokenSecretName(c);
    OnlyOneTokenAfter(w, k, n, w'.tokens[n], w');
    StaleAgainst(w', k, n);
  }

  lemma StaleAgainst(w: World, k: Key, n: string)
    requires n in TokensFor(w, BootstrapKey(k))
    requires KubeName(k) in w.secrets && w.secrets[KubeName(k)].Kubeconfig?
    requires Text(w.tokens[n]) != w.secrets[KubeName(k)].token
    ensures !TokenAgreement.Agree(TokenAgreement.TViewOf(w, k))
  {
    assert n in TokenAgreement.TViewOf(w, k).tokens;
  }

  // ---------------------------------------------------------------- edge deployments

  /** An edge deployment whose script exists and whose OSC is gone, as after any rotation, is stuck:
      every failure-free pass fails, makes no OSC, and leaves the script in place. */
  lemma EdgeNeverRecovers(ns: string, k: Key, w: World, osp: OspSpec, c: Choice)
    requires Stable(w, k) && Served(ns, w, w.mds[k], osp) && SelfApart(k)
    requires !c.broken && FreshName(w, k, c) && KubeTyped(w, k)
    requires OscName(k) !in w.oscs && EdgeBlocked(w, k, w.mds[k])
    ensures var (w', err) := Finish(ns, k, ReadMD, w, c);
      && err && OscName(k) !in w'.oscs
      && w'.mds == w.mds && Stable(w', k) && EdgeBlocked(w', k, w.mds[k])
      && Served(ns, w', w.mds[k], osp) && KubeTyped(w', k)
  {
    var md := w.mds[k];
    StartPhase(ns, k, w, osp, c);
    RotationPhase(ns, k, w, md, osp, c);
    if TokensUsable(w, k) {
      var (w1, text, renewed) := TokenOutcome(w, k, c);
      TokenPhase(ns, k, w, md, osp, c);
      TokenSecured(w, k, c);
      KubePhase(ns, k, w1, md, osp, text, renewed, c);
      KubeKeepsRest(w1, k, text, renewed);
      OscPhaseFails(ns, k, KubeOutcome(w1, k, text, renewed), md, osp, text, c);
    } else {
      TokenPhaseFails(ns, k, w, md, osp, c);
    }
  }

  /** Each failure-free pass of a sequence, at whatever chance, fails and makes no OSC. */
  ghost predicate PassesFail(ns: string, k: Key, w: World, cs: seq<Choice>)
    decreases |cs|
  {
    cs != [] && !cs[0].broken && FreshName(w, k, cs[0]) ==>
      var (w', err) := Finish(ns, k, ReadMD, w, cs[0]);
      err && OscName(k) !in w'.oscs && PassesFail(ns, k, w', cs[1..])
  }

  /** So it stays stuck over any number of failure-free passes. */
  lemma {:induction false} EdgeStaysStuck(ns: string, k: Key, w: World, osp: OspSpec, cs: seq<Choice>)
    requires Stable(w, k) && Served(ns, w, w.mds[k], osp) && SelfApart(k) && KubeTyped(w, k)
    requires OscName(k) !in w.oscs && EdgeBlocked(w, k, w.mds[k])
    ensures PassesFail(ns, k, w, cs)
    decreases |cs|
  {
    if cs != [] && !cs[0].broken && FreshName(w, k, cs[0]) {
      EdgeNeverRecovers(ns, k, w, osp, cs[0]);
      EdgeStaysStuck(ns, k, Finish(ns, k, ReadMD, w, cs[0]).0, osp, cs[1..]);
    }
  }

  // ---------------------------------------------------------------- a cleanup ends

  function Released(w: World, k: Key): World
    requires k in w.mds
  {
    var fs := Finalizers.RemoveFinalizer(w.mds[k].finalizers, FINALIZER);
    var w1 := Cleared(w, k);
    if fs == [] then w1.(mds := w1.mds - {k}, rv := w1.rv + 1)
    else w1.(mds := w1.mds[k := w1.mds[k].(finalizers := fs, rv := w1.rv)], rv := w1.rv + 1)
  }

  lemma CleanSecretStep(ns: string, k: Key, w: World, md: MachineDeployment, slot: Slot, c: Choice)
    requires slot != OscSlot
    ensures WorkerStep(ns, k, w, CleanDel(md, slot), NoFault, c)
         == (w.(secrets := w.secrets - {SecretName(k, slot)}), match slot
               case ProvSlot => CleanDel(md, BootSlot)
               case BootSlot => CleanDel(md, KubeSlot)
               case KubeSlot => RemoveFin(md))
  {
    if SecretName(k, slot) !in w.secrets { assert w.secrets - {SecretName(k, slot)} == w.secrets; }
  }

  lemma CleanOscStep(ns: string, k: Key, w: World, md: MachineDeployment, c: Choice)
    ensures WorkerStep(ns, k, w, CleanDel(md, OscSlot), NoFault, c)
         == (w.(oscs := w.oscs - {OscName(k)}), CleanDel(md, ProvSlot))
  {
    if OscName(k) !in w.oscs { assert w.oscs - {OscName(k)} == w.oscs; }
  }

  /** One undisturbed cleanup pass deletes the four objects, whichever are left, and releases the
      deployment with exactly its other finalizers. */
  lemma CleanupPass(ns: string, k: Key, w: World, c: Choice)
    requires k in w.mds && w.mds[k].deleting && FINALIZER in w.mds[k].finalizers
    ensures Finish(ns, k, ReadMD, w, c) == (Released(w, k), false)
  {
    var md := w.mds[k];
    var w1 := w.(oscs := w.oscs - {OscName(k)});
    var w2 := w1.(secrets := w1.secrets - {ProvName(k)});
    var w3 := w2.(secrets := w2.secrets - {BootName(k)});
    OneStep(ns, k, ReadMD, w, CleanDel(md, OscSlot), w, c);
    CleanOscStep(ns, k, w, md, c);
    OneStep(ns, k, CleanDel(md, OscSlot), w, CleanDel(md, ProvSlot), w1, c);
    CleanSecretStep(ns, k, w1, md, ProvSlot, c);
    OneStep(ns, k, CleanDel(md, ProvSlot), w1, CleanDel(md, BootSlot), w2, c);
    CleanSecretStep(ns, k, w2, md, BootSlot, c);
    OneStep(ns, k, CleanDel(md, BootSlot), w2, CleanDel(md, KubeSlot), w3, c);
    CleanSecretStep(ns, k, w3, md, KubeSlot, c);
    OneStep(ns, k, CleanDel(md, KubeSlot), w3, RemoveFin(md), Cleared(w, k), c);
    ReleaseStep(ns, k, w, c);
  }

  lemma ReleaseStep(ns: string, k: Key, w: World, c: Choice)
    requires k in w.mds && w.mds[k].deleting
    ensures Finish(ns, k, RemoveFin(w.mds[k]), Cleared(w, k), c) == (Released(w, k), false)
  {
    OneStep(ns, k, RemoveFin(w.mds[k]), Cleared(w, k), Done(false), Released(w, k), c);
  }
}
