/** What each phase of a failure-free pass does to the cluster. */
module Phases {
  import opened Names
  import opened Cluster
  import opened Protocol
  import opened NoOrphans
  import opened Coherence
  import opened TokenLifetime
  import opened Pass
  import Finalizers

  // ---------------------------------------------------------------- phases

  /** The deployment carries the finalizer afterwards and is otherwise what it was. */
  function Adopted(w: World, k: Key): World
    requires k in w.mds
  {
    if FINALIZER in w.mds[k].finalizers then w
    else
      var md := w.mds[k].(finalizers := Finalizers.AddFinalizer(w.mds[k].finalizers, FINALIZER));
      w.(mds := w.mds[k := md.(rv := w.rv)], rv := w.rv + 1)
  }

  predicate Served(ns: string, w: World, md: MachineDeployment, osp: OspSpec) {
    OspKey(ns, md) in w.osps && w.osps[OspKey(ns, md)] == osp && Supports(md, osp)
  }

  lemma AdoptPhase(ns: string, k: Key, w: World, c: Choice)
    requires k in w.mds && !w.mds[k].deleting
    ensures Finish(ns, k, ReadMD, w, c) == Finish(ns, k, FetchOSP(Adopted(w, k).mds[k]), Adopted(w, k), c)
  {
    var w1, md := Adopted(w, k), w.mds[k];
    if FINALIZER in md.finalizers {
      OneStep(ns, k, ReadMD, w, FetchOSP(md), w, c);
    } else {
      var edited := md.(finalizers := Finalizers.AddFinalizer(md.finalizers, FINALIZER));
      OneStep(ns, k, ReadMD, w, AddFin(edited), w, c);
      assert WorldAfter(w, UpdateMD(k, edited), NoFault) == w1;
      OneStep(ns, k, AddFin(edited), w, FetchOSP(w1.mds[k]), w1, c);
    }
  }

  lemma StartPhase(ns: string, k: Key, w: World, osp: OspSpec, c: Choice)
    requires k in w.mds && !w.mds[k].deleting && Served(ns, w, w.mds[k], osp)
    ensures var w1 := Adopted(w, k);
      Finish(ns, k, ReadMD, w, c) == Finish(ns, k, RotGet(w1.mds[k], osp), w1, c)
  {
    var w1 := Adopted(w, k);
    AdoptPhase(ns, k, w, c);
    OneStep(ns, k, FetchOSP(w1.mds[k]), w1, RotGet(w1.mds[k], osp), w1, c);
  }

  /** The stored OSC carries the stamp of this pass. */
  predicate Kept(w: World, k: Key, md: MachineDeployment, osp: OspSpec) {
    OscName(k) in w.oscs && w.oscs[OscName(k)].stamp == StampOf(md, osp)
  }

  /** All four objects deleted. */
  function Cleared(w: World, k: Key): World {
    w.(oscs := w.oscs - {OscName(k)}, secrets := w.secrets - {ProvName(k)} - {BootName(k)} - {KubeName(k)})
  }

  function AfterRotation(w: World, k: Key, md: MachineDeployment, osp: OspSpec): World {
    if OscName(k) in w.oscs && !Kept(w, k, md, osp) then Cleared(w, k) else w
  }

  lemma DeleteOscStep(ns: string, k: Key, w: World, md: MachineDeployment, osp: OspSpec, c: Choice)
    requires OscName(k) in w.oscs
    ensures WorkerStep(ns, k, w, RotDel(md, osp, OscSlot), NoFault, c)
         == (w.(oscs := w.oscs - {OscName(k)}), RotDel(md, osp, ProvSlot))
  {
  }

  lemma DeleteSecretStep(ns: string, k: Key, w: World, md: MachineDeployment, osp: OspSpec, slot: Slot, c: Choice)
    requires slot != OscSlot
    ensures WorkerStep(ns, k, w, RotDel(md, osp, slot), NoFault, c)
         == (w.(secrets := w.secrets - {SecretName(k, slot)}), match slot
               case ProvSlot => RotDel(md, osp, BootSlot)
               case BootSlot => RotDel(md, osp, KubeSlot)
               case KubeSlot => TokenList(md, osp))
  {
  }

  lemma RotationPhase(ns: string, k: Key, w: World, md: MachineDeployment, osp: OspSpec, c: Choice)
    ensures Finish(ns, k, RotGet(md, osp), w, c)
         == Finish(ns, k, TokenList(md, osp), AfterRotation(w, k, md, osp), c)
  {
    if OscName(k) in w.oscs && !Kept(w, k, md, osp) {
      var w1 := w.(oscs := w.oscs - {OscName(k)});
      DeleteOscStep(ns, k, w, md, osp, c);
      var w2 := w1.(secrets := w1.secrets - {ProvName(k)});
      DeleteSecretStep(ns, k, w1, md, osp, ProvSlot, c);
      var w3 := w2.(secrets := w2.secrets - {BootName(k)});
      DeleteSecretStep(ns, k, w2, md, osp, BootSlot, c);
      DeleteSecretStep(ns, k, w3, md, osp, KubeSlot, c);
      assert w3.(secrets := w3.secrets - {KubeName(k)}) == Cleared(w, k);
      OneStep(ns, k, RotGet(md, osp), w, RotDel(md, osp, OscSlot), w, c);
      OneStep(ns, k, RotDel(md, osp, OscSlot), w, RotDel(md, osp, ProvSlot), w1, c);
      OneStep(ns, k, RotDel(md, osp, ProvSlot), w1, RotDel(md, osp, BootSlot), w2, c);
      OneStep(ns, k, RotDel(md, osp, BootSlot), w2, RotDel(md, osp, KubeSlot), w3, c);
      OneStep(ns, k, RotDel(md, osp, KubeSlot), w3, TokenList(md, osp), Cleared(w, k), c);
    } else {
      OneStep(ns, k, RotGet(md, osp), w, TokenList(md, osp), w, c);
    }
  }

  // ---------------------------------------------------------------- token and kubeconfig

  /** At most one token, with a readable expiry. */
  predicate TokensUsable(w: World, k: Key) {
    var tokens := TokensFor(w, BootstrapKey(k));
    |tokens| <= 1 && forall n :: n in tokens ==> tokens[n].expiry.Some?
  }

  /** A token that has to be made gets a name nobody uses. */
  predicate FreshName(w: World, k: Key, c: Choice) {
    |TokensFor(w, BootstrapKey(k))| == 0 ==> TokenSecretName(c) !in w.tokens
  }

  predicate TokenReady(w: World, k: Key, c: Choice) {
    !c.broken && TokensUsable(w, k) && FreshName(w, k, c)
  }

  /** Several tokens, or one without a readable expiry, fail the pass before it writes anything. */
  lemma TokenPhaseFails(ns: string, k: Key, w: World, md: MachineDeployment, osp: OspSpec, c: Choice)
    requires !TokensUsable(w, k)
    ensures Finish(ns, k, TokenList(md, osp), w, c) == (w, true)
  {
    var tokens := TokensFor(w, BootstrapKey(k));
    if |tokens| == 1 { OneKey(tokens); }
    OneStep(ns, k, TokenList(md, osp), w, Done(true), w, c);
  }

  /** The world, token text and renewal flag with which the token requests end. */
  function TokenOutcome(w: World, k: Key, c: Choice): (World, string, bool)
    requires TokenReady(w, k, c)
  {
    var tokens := TokensFor(w, BootstrapKey(k));
    if |tokens| == 0 then
      var t := NewToken(k, w.clock, c).(rv := w.rv);
      (w.(tokens := w.tokens[TokenSecretName(c) := t], rv := w.rv + 1), Text(t), false)
    else
      var n := OnlyToken(tokens);
      var t := tokens[n];
      if CloseToExpiry(w.clock, t.expiry.value) then
        var later := t.(expiry := Some(RenewedExpiry(w.clock)), rv := w.rv);
        (w.(tokens := w.tokens[n := later], rv := w.rv + 1), Text(t), true)
      else (w, Text(t), true)
  }

  lemma TokenPhase(ns: string, k: Key, w: World, md: MachineDeployment, osp: OspSpec, c: Choice)
    requires TokenReady(w, k, c)
    ensures var (w', text, renewed) := TokenOutcome(w, k, c);
      Finish(ns, k, TokenList(md, osp), w, c) == Finish(ns, k, KubeGet(md, osp, text, renewed), w', c)
  {
    if |TokensFor(w, BootstrapKey(k))| == 0 {
      TokenMade(ns, k, w, md, osp, c);
    } else {
      TokenFound(ns, k, w, md, osp, c);
    }
  }

  lemma TokenMade(ns: string, k: Key, w: World, md: MachineDeployment, osp: OspSpec, c: Choice)
    requires TokenReady(w, k, c) && |TokensFor(w, BootstrapKey(k))| == 0
    ensures var (w', text, renewed) := TokenOutcome(w, k, c);
      Finish(ns, k, TokenList(md, osp), w, c) == Finish(ns, k, KubeGet(md, osp, text, renewed), w', c)
  {
    var (w', text, renewed) := TokenOutcome(w, k, c);
    OneStep(ns, k, TokenList(md, osp), w, TokenCreate(md, osp), w, c);
    OneStep(ns, k, TokenCreate(md, osp), w, KubeGet(md, osp, text, renewed), w', c);
  }

  lemma TokenFound(ns: string, k: Key, w: World, md: MachineDeployment, osp: OspSpec, c: Choice)
    requires TokenReady(w, k, c) && |TokensFor(w, BootstrapKey(k))| == 1
    ensures var (w', text, renewed) := TokenOutcome(w, k, c);
      Finish(ns, k, TokenList(md, osp), w, c) == Finish(ns, k, KubeGet(md, osp, text, renewed), w', c)
  {
    var (w', text, renewed) := TokenOutcome(w, k, c);
    var n := OnlyToken(TokensFor(w, BootstrapKey(k)));
    var t := w.tokens[n];
    if CloseToExpiry(w.clock, t.expiry.value) {
      var later := t.(expiry := Some(RenewedExpiry(w.clock)));
      OneStep(ns, k, TokenList(md, osp), w, TokenRenew(md, osp, n, later), w, c);
      OneStep(ns, k, TokenRenew(md, osp, n, later), w, KubeGet(md, osp, text, renewed), w', c);
    } else {
      OneStep(ns, k, TokenList(md, osp), w, KubeGet(md, osp, text, renewed), w', c);
    }
  }

  /** Exactly one token, with this text, good for thirty minutes. */
  ghost predicate Secured(w: World, k: Key, text: string) {
    var tokens := TokensFor(w, BootstrapKey(k));
    && |tokens| == 1
    && forall n :: n in tokens ==>
         && Text(tokens[n]) == text
         && tokens[n].expiry.Some? && !CloseToExpiry(w.clock, tokens[n].expiry.value)
  }

  lemma TokenSecured(w: World, k: Key, c: Choice)
    requires TokenReady(w, k, c)
    ensures var (w', text, renewed) := TokenOutcome(w, k, c);
      Secured(w', k, text) && w' == w.(tokens := w'.tokens, rv := w'.rv)
  {
    RenewalGains(w.clock, 0);
    if |TokensFor(w, BootstrapKey(k))| == 0 { MadeTokenSecured(w, k, c); } else { FoundTokenSecured(w, k, c); }
  }

  lemma MadeTokenSecured(w: World, k: Key, c: Choice)
    requires TokenReady(w, k, c) && |TokensFor(w, BootstrapKey(k))| == 0
    ensures Secured(TokenOutcome(w, k, c).0, k, TokenOutcome(w, k, c).1)
  {
    RenewalGains(w.clock, 0);
    var w' := TokenOutcome(w, k, c).0;
    OnlyOneTokenAfter(w, k, TokenSecretName(c), w'.tokens[TokenSecretName(c)], w');
  }

  lemma FoundTokenSecured(w: World, k: Key, c: Choice)
    requires TokenReady(w, k, c) && |TokensFor(w, BootstrapKey(k))| == 1
    ensures Secured(TokenOutcome(w, k, c).0, k, TokenOutcome(w, k, c).1)
  {
    RenewalGains(w.clock, 0);
    var w' := TokenOutcome(w, k, c).0;
    OneKey(TokensFor(w, BootstrapKey(k)));
    var n := OnlyToken(TokensFor(w, BootstrapKey(k)));
    OnlyOneTokenAfter(w, k, n, w'.tokens[n], w');
  }

  lemma OnlyOneTokenAfter(w: World, k: Key, n: string, t: Token, w': World)
    requires w'.tokens == w.tokens[n := t] && t.owner == BootstrapKey(k)
    requires forall m :: m in TokensFor(w, BootstrapKey(k)) ==> m == n
    ensures TokensFor(w', BootstrapKey(k)) == map[n := t]
  {
    var one := map[n := t];
    var tokens := TokensFor(w', BootstrapKey(k));
    assert forall m :: m in tokens ==> m == n || m in TokensFor(w, BootstrapKey(k));
    assert tokens.Keys == one.Keys;
  }

  function KubeOutcome(w: World, k: Key, text: string, renewed: bool): World {
    if KubeName(k) in w.secrets && renewed then w
    else WithSecret(w, KubeName(k), Kubeconfig(text, w.rv))
  }

  lemma KubePhase(ns: string, k: Key, w: World, md: MachineDeployment, osp: OspSpec, text: string, renewed: bool,
      c: Choice)
    requires KubeName(k) in w.secrets ==> w.secrets[KubeName(k)].Kubeconfig?
    ensures Finish(ns, k, KubeGet(md, osp, text, renewed), w, c)
         == Finish(ns, k, OscGet(md, osp, text), KubeOutcome(w, k, text, renewed), c)
  {
    var w' := KubeOutcome(w, k, text, renewed);
    if KubeName(k) !in w.secrets {
      OneStep(ns, k, KubeGet(md, osp, text, renewed), w, KubeCreate(md, osp, text), w, c);
      OneStep(ns, k, KubeCreate(md, osp, text), w, OscGet(md, osp, text), w', c);
    } else if renewed {
      OneStep(ns, k, KubeGet(md, osp, text, renewed), w, OscGet(md, osp, text), w, c);
    } else {
      var rv := w.secrets[KubeName(k)].rv;
      OneStep(ns, k, KubeGet(md, osp, text, renewed), w, KubeUpdate(md, osp, text, rv), w, c);
      OneStep(ns, k, KubeUpdate(md, osp, text, rv), w, OscGet(md, osp, text), w', c);
    }
  }

  // ---------------------------------------------------------------- the OSC

  /** User data can be generated from the OSC this pass would make. */
  predicate Generatable(k: Key, md: MachineDeployment, osp: OspSpec) {
    Generates(md, GenerateOsc(k, md, osp, ""))
  }

  /** An edge script in the way: it is always created, never looked up or deleted. */
  predicate EdgeBlocked(w: World, k: Key, md: MachineDeployment) {
    IsEdge(md) && EdgeName(k) in w.secrets
  }

  function NewOSC(k: Key, md: MachineDeployment, osp: OspSpec, text: string): OSC {
    OSC(StampOf(md, osp), GenerateOsc(k, md, osp, text))
  }

  function WithSecret(w: World, n: string, secret: Secret): World {
    w.(secrets := w.secrets[n := secret], rv := w.rv + 1)
  }

  function WithOSC(w: World, n: string, osc: OSC): World {
    w.(oscs := w.oscs[n := osc], rv := w.rv + 1)
  }

  function WithScript(w: World, k: Key, md: MachineDeployment): World {
    if IsEdge(md) then WithSecret(w, EdgeName(k), EdgeScript(k, w.rv)) else w
  }

  function OscOutcome(w: World, k: Key, md: MachineDeployment, osp: OspSpec, text: string): World {
    if OscName(k) in w.oscs then w
    else WithOSC(WithScript(w, k, md), OscName(k), NewOSC(k, md, osp, text))
  }

  lemma OscPhase(ns: string, k: Key, w: World, md: MachineDeployment, osp: OspSpec, text: string, c: Choice)
    requires !c.broken
    requires OscName(k) !in w.oscs ==> UtilityAccepted(md, osp) && md.template.strict && !EdgeBlocked(w, k, md)
    ensures Finish(ns, k, OscGet(md, osp, text), w, c)
         == Finish(ns, k, OscReread(md, osp), OscOutcome(w, k, md, osp, text), c)
  {
    if OscName(k) in w.oscs {
      OneStep(ns, k, OscGet(md, osp, text), w, OscReread(md, osp), w, c);
    } else {
      OneStep(ns, k, OscGet(md, osp, text), w, ReadExternal(md, osp, text), w, c);
      OscNeeded(ns, k, w, md, osp, text, c);
    }
  }

  lemma OscNeeded(ns: string, k: Key, w: World, md: MachineDeployment, osp: OspSpec, text: string, c: Choice)
    requires !c.broken && OscName(k) !in w.oscs && md.template.strict && !EdgeBlocked(w, k, md)
    ensures Finish(ns, k, ReadExternal(md, osp, text), w, c)
         == Finish(ns, k, OscReread(md, osp), OscOutcome(w, k, md, osp, text), c)
  {
    ScriptPhase(ns, k, w, md, osp, text, c);
    OscMade(ns, k, WithScript(w, k, md), md, osp, text, c);
  }

  lemma ScriptPhase(ns: string, k: Key, w: World, md: MachineDeployment, osp: OspSpec, text: string, c: Choice)
    requires !c.broken && md.template.strict && !EdgeBlocked(w, k, md)
    ensures Finish(ns, k, ReadExternal(md, osp, text), w, c)
         == Finish(ns, k, OscCreate(md, osp, text), WithScript(w, k, md), c)
  {
    if IsEdge(md) {
      EdgePhase(ns, k, w, md, osp, text, c);
    } else {
      OneStep(ns, k, ReadExternal(md, osp, text), w, OscCreate(md, osp, text), w, c);
    }
  }

  lemma CreateEffect(w: World, n: string, secret: Secret)
    requires n !in w.secrets
    ensures WorldAfter(w, CreateSecret(n, secret), NoFault) == WithSecret(w, n, StampSecret(secret, w.rv))
    ensures Reply(w, CreateSecret(n, secret), NoFault) == Ok
  {
  }

  lemma OscMade(ns: string, k: Key, w: World, md: MachineDeployment, osp: OspSpec, text: string, c: Choice)
    requires OscName(k) !in w.oscs
    ensures var w' := WithOSC(w, OscName(k), NewOSC(k, md, osp, text));
      Finish(ns, k, OscCreate(md, osp, text), w, c) == Finish(ns, k, OscReread(md, osp), w', c)
  {
    var w' := WithOSC(w, OscName(k), NewOSC(k, md, osp, text));
    OneStep(ns, k, OscCreate(md, osp, text), w, OscReread(md, osp), w', c);
  }

  lemma EdgePhase(ns: string, k: Key, w: World, md: MachineDeployment, osp: OspSpec, text: string, c: Choice)
    requires !c.broken && md.template.strict && IsEdge(md) && EdgeName(k) !in w.secrets
    ensures var w1 := WithSecret(w, EdgeName(k), EdgeScript(k, w.rv));
      Finish(ns, k, ReadExternal(md, osp, text), w, c) == Finish(ns, k, OscCreate(md, osp, text), w1, c)
  {
    var w1 := WithSecret(w, EdgeName(k), EdgeScript(k, w.rv));
    OneStep(ns, k, ReadExternal(md, osp, text), w, EdgeGet(md, osp, text), w, c);
    OneStep(ns, k, EdgeGet(md, osp, text), w, EdgeCreate(md, osp, text), w, c);
    EdgeMade(ns, k, w, md, osp, text, c);
  }

  lemma EdgeMade(ns: string, k: Key, w: World, md: MachineDeployment, osp: OspSpec, text: string, c: Choice)
    requires EdgeName(k) !in w.secrets
    ensures Finish(ns, k, EdgeCreate(md, osp, text), w, c)
         == Finish(ns, k, OscCreate(md, osp, text), WithSecret(w, EdgeName(k), EdgeScript(k, w.rv)), c)
  {
    CreateEffect(w, EdgeName(k), EdgeScript(k, 0));
    OneStep(ns, k, EdgeCreate(md, osp, text), w, OscCreate(md, osp, text), WithSecret(w, EdgeName(k), EdgeScript(k,
        w.rv)), c);
  }

  /** An existing edge script fails every pass that has to make an OSC. */
  lemma {:induction false} EdgePhaseFails(ns: string, k: Key, w: World, md: MachineDeployment, osp: OspSpec,
      text: string, c: Choice)
    requires !c.broken && md.template.strict && EdgeBlocked(w, k, md)
    ensures Finish(ns, k, ReadExternal(md, osp, text), w, c) == (w, true)
  {
    OneStep(ns, k, ReadExternal(md, osp, text), w, EdgeGet(md, osp, text), w, c);
    OneStep(ns, k, EdgeGet(md, osp, text), w, EdgeCreate(md, osp, text), w, c);
    OneStep(ns, k, EdgeCreate(md, osp, text), w, Done(true), w, c);
  }

  lemma OscPhaseFails(ns: string, k: Key, w: World, md: MachineDeployment, osp: OspSpec, text: string, c: Choice)
    requires !c.broken && OscName(k) !in w.oscs
    requires !UtilityAccepted(md, osp) || !md.template.strict || EdgeBlocked(w, k, md)
    ensures Finish(ns, k, OscGet(md, osp, text), w, c) == (w, true)
  {
    if !UtilityAccepted(md, osp) {
      OneStep(ns, k, OscGet(md, osp, text), w, Done(true), w, c);
    } else {
      OneStep(ns, k, OscGet(md, osp, text), w, ReadExternal(md, osp, text), w, c);
      if !md.template.strict {
        OneStep(ns, k, ReadExternal(md, osp, text), w, Done(true), w, c);
      } else {
        EdgePhaseFails(ns, k, w, md, osp, text, c);
      }
    }
  }

  // ---------------------------------------------------------------- the cloud-config secrets

  function CloudOutcome(w: World, k: Key, md: MachineDeployment, osp: OspSpec, osc: OSC, slot: Slot): World
    requires slot == ProvSlot || slot == BootSlot
  {
    if SecretName(k, slot) in w.secrets then w
    else WithSecret(w, SecretName(k, slot), CloudSecret(k, md, osp, osc, slot))
  }

  lemma CloudPhase(ns: string, k: Key, w: World, md: MachineDeployment, osp: OspSpec, osc: OSC, slot: Slot, c: Choice)
    requires !c.broken && (slot == ProvSlot || slot == BootSlot)
    ensures Finish(ns, k, CloudGet(md, osp, osc, slot), w, c)
         == if SecretName(k, slot) in w.secrets || Generates(md, osc.spec) then
              Finish(ns, k, AfterCloud(md, osp, osc, slot), CloudOutcome(w, k, md, osp, osc, slot), c)
            else (w, true)
  {
    if SecretName(k, slot) in w.secrets {
      OneStep(ns, k, CloudGet(md, osp, osc, slot), w, AfterCloud(md, osp, osc, slot), w, c);
    } else if Generates(md, osc.spec) {
      OneStep(ns, k, CloudGet(md, osp, osc, slot), w, CloudCreate(md, osp, osc, slot), w, c);
      CloudMade(ns, k, w, md, osp, osc, slot, c);
    } else {
      OneStep(ns, k, CloudGet(md, osp, osc, slot), w, Done(true), w, c);
    }
  }

  lemma CloudMade(ns: string, k: Key, w: World, md: MachineDeployment, osp: OspSpec, osc: OSC, slot: Slot, c: Choice)
    requires (slot == ProvSlot || slot == BootSlot) && SecretName(k, slot) !in w.secrets
    ensures Finish(ns, k, CloudCreate(md, osp, osc, slot), w, c)
         == Finish(ns, k, AfterCloud(md, osp, osc, slot), CloudOutcome(w, k, md, osp, osc, slot), c)
  {
    var w' := CloudOutcome(w, k, md, osp, osc, slot);
    CreateEffect(w, SecretName(k, slot), CloudSecret(k, md, osp, osc, slot));
    OneStep(ns, k, CloudCreate(md, osp, osc, slot), w, AfterCloud(md, osp, osc, slot), w', c);
  }
}
