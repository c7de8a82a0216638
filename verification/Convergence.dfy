/** What a whole failure-free pass achieves. */
module Convergence {
  import opened Names
  import opened Cluster
  import opened Protocol
  import opened NoOrphans
  import opened Coherence
  import TokenAgreement
  import opened Pass
  import opened Phases

  // ---------------------------------------------------------------- the pass as one function

  /** Both cloud-config secrets are there. */
  predicate BothSecrets(w: World, k: Key) {
    ProvName(k) in w.secrets && BootName(k) in w.secrets
  }

  /** After the rotation check: what must be true for the pass to succeed. All of it can be read
      off the cluster and the profile beforehand. */
  predicate Ready(w: World, k: Key, md: MachineDeployment, osp: OspSpec) {
    if OscName(k) in w.oscs then
      BothSecrets(w, k) || Generates(md, w.oscs[OscName(k)].spec)
    else
      && UtilityAccepted(md, osp) && md.template.strict && !EdgeBlocked(w, k, md)
      && (BothSecrets(w, k) || Generatable(k, md, osp))
  }

  function Provisioned(w: World, k: Key, md: MachineDeployment, osp: OspSpec, osc: OSC): World {
    CloudOutcome(CloudOutcome(w, k, md, osp, osc, ProvSlot), k, md, osp, osc, BootSlot)
  }

  /** The world in which a successful pass ends, from the world after the rotation check. */
  function PassOutcome(w: World, k: Key, md: MachineDeployment, osp: OspSpec, c: Choice): World
    requires TokenReady(w, k, c)
  {
    var (w1, text, renewed) := TokenOutcome(w, k, c);
    var w2 := OscOutcome(KubeOutcome(w1, k, text, renewed), k, md, osp, text);
    Provisioned(w2, k, md, osp, w2.oscs[OscName(k)])
  }

  predicate KubeTyped(w: World, k: Key) {
    KubeName(k) in w.secrets ==> w.secrets[KubeName(k)].Kubeconfig?
  }

  lemma ProvisionPhase(ns: string, k: Key, w: World, md: MachineDeployment, osp: OspSpec, c: Choice)
    requires !c.broken && OscName(k) in w.oscs && SelfApart(k)
    ensures var osc := w.oscs[OscName(k)]; var r := Finish(ns, k, OscReread(md, osp), w, c);
      if BothSecrets(w, k) || Generates(md, osc.spec) then r == (Provisioned(w, k, md, osp, osc), false) else r.1
  {
    var osc := w.oscs[OscName(k)];
    OneStep(ns, k, OscReread(md, osp), w, CloudGet(md, osp, osc, ProvSlot), w, c);
    CloudPhase(ns, k, w, md, osp, osc, ProvSlot, c);
    if ProvName(k) in w.secrets || Generates(md, osc.spec) {
      var w1 := CloudOutcome(w, k, md, osp, osc, ProvSlot);
      CloudPhase(ns, k, w1, md, osp, osc, BootSlot, c);
      assert BootName(k) in w1.secrets <==> BootName(k) in w.secrets;
      SecondSecret(ns, k, w1, md, osp, osc, c);
    }
  }

  /** After the bootstrap secret nothing is left to do. */
  lemma SecondSecret(ns: string, k: Key, w: World, md: MachineDeployment, osp: OspSpec, osc: OSC, c: Choice)
    ensures var w2 := CloudOutcome(w, k, md, osp, osc, BootSlot);
      Finish(ns, k, AfterCloud(md, osp, osc, BootSlot), w2, c) == (w2, false)
  {
  }

  /** The token and kubeconfig phases leave everything else as it was. */
  lemma KubeKeepsRest(w: World, k: Key, text: string, renewed: bool)
    requires SelfApart(k)
    ensures var w' := KubeOutcome(w, k, text, renewed);
      && w' == w.(secrets := w'.secrets, rv := w'.rv)
      && (BothSecrets(w', k) <==> BothSecrets(w, k))
      && (EdgeName(k) in w'.secrets <==> EdgeName(k) in w.secrets)
      && ViewOf(w', k) == ViewOf(w, k)
  {
  }

  lemma OscKeepsSecrets(w: World, k: Key, md: MachineDeployment, osp: OspSpec, text: string)
    requires SelfApart(k)
    ensures var w' := OscOutcome(w, k, md, osp, text);
      && w' == w.(oscs := w'.oscs, secrets := w'.secrets, rv := w'.rv)
      && (BothSecrets(w', k) <==> BothSecrets(w, k))
      && ViewOf(w', k) == ViewOf(w, k).(osc := Some(w'.oscs[OscName(k)]))
      && (KubeName(k) in w.secrets ==> KubeName(k) in w'.secrets && w'.secrets[KubeName(k)] == w.secrets[KubeName(k)])
  {
  }

  /** From the token list on, the pass succeeds exactly when the world is ready. */
  lemma TailOfPass(ns: string, k: Key, w: World, md: MachineDeployment, osp: OspSpec, c: Choice)
    requires TokenReady(w, k, c) && KubeTyped(w, k) && SelfApart(k)
    ensures var r := Finish(ns, k, TokenList(md, osp), w, c);
      if Ready(w, k, md, osp) then r == (PassOutcome(w, k, md, osp, c), false) else r.1
  {
    var (w1, text, renewed) := TokenOutcome(w, k, c);
    TokenPhase(ns, k, w, md, osp, c);
    TokenSecured(w, k, c);
    KubePhase(ns, k, w1, md, osp, text, renewed, c);
    KubeKeepsRest(w1, k, text, renewed);
    AfterKube(ns, k, w, KubeOutcome(w1, k, text, renewed), md, osp, text, c);
  }

  lemma AfterKube(ns: string, k: Key, w: World, w2: World, md: MachineDeployment, osp: OspSpec, text: string, c: Choice)
    requires !c.broken && SelfApart(k)
    requires w2.oscs == w.oscs && (BothSecrets(w2, k) <==> BothSecrets(w, k))
    requires EdgeName(k) in w2.secrets <==> EdgeName(k) in w.secrets
    ensures var r := Finish(ns, k, OscGet(md, osp, text), w2, c); var w3 := OscOutcome(w2, k, md, osp, text);
      if Ready(w, k, md, osp) then r == (Provisioned(w3, k, md, osp, w3.oscs[OscName(k)]), false) else r.1
  {
    if OscName(k) !in w.oscs && (!UtilityAccepted(md, osp) || !md.template.strict || EdgeBlocked(w, k, md)) {
      OscPhaseFails(ns, k, w2, md, osp, text, c);
    } else {
      OscPhase(ns, k, w2, md, osp, text, c);
      OscKeepsSecrets(w2, k, md, osp, text);
      ProvisionPhase(ns, k, OscOutcome(w2, k, md, osp, text), md, osp, c);
    }
  }

  // ---------------------------------------------------------------- settled and converged

  /** Everything is there and the OSC has the current stamp: nothing is left to do. */
  ghost predicate Settled(w: World, k: Key, osp: OspSpec) {
    && Stable(w, k)
    && Kept(w, k, w.mds[k], osp)
    && BothSecrets(w, k)
    && KubeName(k) in w.secrets && w.secrets[KubeName(k)].Kubeconfig?
    && exists text :: Secured(w, k, text)
  }

  /** Settled, with secrets made from the stored OSC under its stamp, and one token that the
      kubeconfig carries and that lasts at least thirty minutes. */
  ghost predicate Converged(w: World, k: Key, osp: OspSpec) {
    && Settled(w, k, osp)
    && Coherent(k, ViewOf(w, k))
    && TokenAgreement.Agree(TokenAgreement.TViewOf(w, k))
  }

  /** The kubeconfig written by a pass carries its token; one it leaves alone agreed before. */
  lemma KubeAgrees(w: World, k: Key, c: Choice)
    requires TokenReady(w, k, c) && KubeTyped(w, k) && TokenAgreement.Agree(TokenAgreement.TViewOf(w, k))
    ensures var (w1, text, renewed) := TokenOutcome(w, k, c); var w2 := KubeOutcome(w1, k, text, renewed);
      KubeName(k) in w2.secrets && w2.secrets[KubeName(k)].Kubeconfig? && w2.secrets[KubeName(k)].token == text
  {
    var tokens := TokensFor(w, BootstrapKey(k));
    if |tokens| == 1 {
      var n := OnlyToken(tokens);
      assert n in TokenAgreement.TViewOf(w, k).tokens;
    }
  }

  lemma ProvisionedView(w: World, k: Key, md: MachineDeployment, osp: OspSpec, osc: OSC)
    requires SelfApart(k)
    ensures var w' := Provisioned(w, k, md, osp, osc);
      && w' == w.(secrets := w'.secrets, rv := w'.rv)
      && BothSecrets(w', k)
      && ViewOf(w', k).osc == ViewOf(w, k).osc
      && w'.secrets[ProvName(k)] == (if ProvName(k) in w.secrets then w.secrets[ProvName(k)]
          else CloudSecret(k, md, osp, osc, ProvSlot))
      && w'.secrets[BootName(k)] == (if BootName(k) in w.secrets then w.secrets[BootName(k)]
          else CloudSecret(k, md, osp, osc, BootSlot))
      && (KubeName(k) in w.secrets ==> KubeName(k) in w'.secrets && w'.secrets[KubeName(k)] == w.secrets[KubeName(k)])
  {
    var w1 := CloudOutcome(w, k, md, osp, osc, ProvSlot);
    assert w1 == w.(secrets := w1.secrets, rv := w1.rv);
    assert BootName(k) in w1.secrets <==> BootName(k) in w.secrets;
  }

  /** A pass that succeeds leaves a settled deployment, whatever secrets it found. */
  lemma OutcomeSettled(w: World, k: Key, osp: OspSpec, c: Choice)
    requires Stable(w, k) && TokenReady(w, k, c) && KubeTyped(w, k) && SelfApart(k)
    requires OscName(k) in w.oscs ==> Kept(w, k, w.mds[k], osp)
    ensures Settled(PassOutcome(w, k, w.mds[k], osp, c), k, osp)
  {
    var md := w.mds[k];
    var (w1, text, renewed) := TokenOutcome(w, k, c);
    TokenSecured(w, k, c);
    var w2 := KubeOutcome(w1, k, text, renewed);
    KubeKeepsRest(w1, k, text, renewed);
    assert Secured(w2, k, text);
    var w3 := OscOutcome(w2, k, md, osp, text);
    OscKeepsSecrets(w2, k, md, osp, text);
    ProvisionedView(w3, k, md, osp, w3.oscs[OscName(k)]);
    assert Secured(PassOutcome(w, k, md, osp, c), k, text);
  }

  /** Secrets a pass finds are left alone; missing ones are made from the OSC under its stamp. */
  lemma OutcomeView(w: World, k: Key, md: MachineDeployment, osp: OspSpec, c: Choice)
    requires TokenReady(w, k, c) && KubeTyped(w, k) && SelfApart(k)
    ensures var w' := PassOutcome(w, k, md, osp, c);
      && OscName(k) in w'.oscs && BothSecrets(w', k)
      && (OscName(k) in w.oscs ==> w'.oscs[OscName(k)] == w.oscs[OscName(k)])
      && (OscName(k) !in w.oscs ==> w'.oscs[OscName(k)].stamp == StampOf(md, osp))
      && w'.secrets[ProvName(k)] == (if ProvName(k) in w.secrets then w.secrets[ProvName(k)]
           else CloudSecret(k, md, osp, w'.oscs[OscName(k)], ProvSlot))
      && w'.secrets[BootName(k)] == (if BootName(k) in w.secrets then w.secrets[BootName(k)]
           else CloudSecret(k, md, osp, w'.oscs[OscName(k)], BootSlot))
  {
    var (w1, text, renewed) := TokenOutcome(w, k, c);
    TokenSecured(w, k, c);
    var w2 := KubeOutcome(w1, k, text, renewed);
    KubeKeepsRest(w1, k, text, renewed);
    var w3 := OscOutcome(w2, k, md, osp, text);
    OscKeepsSecrets(w2, k, md, osp, text);
    ProvisionedView(w3, k, md, osp, w3.oscs[OscName(k)]);
    assert ViewOf(w3, k).prov == ViewOf(w, k).prov && ViewOf(w3, k).boot == ViewOf(w, k).boot;
  }

  lemma OutcomeCoherent(w: World, k: Key, md: MachineDeployment, osp: OspSpec, c: Choice)
    requires TokenReady(w, k, c) && KubeTyped(w, k) && SelfApart(k)
    requires OscName(k) in w.oscs ==> Kept(w, k, md, osp)
    requires Coherent(k, ViewOf(w, k))
    ensures Coherent(k, ViewOf(PassOutcome(w, k, md, osp, c), k))
  {
    OutcomeView(w, k, md, osp, c);
  }

  lemma OutcomeAgrees(w: World, k: Key, md: MachineDeployment, osp: OspSpec, c: Choice)
    requires TokenReady(w, k, c) && KubeTyped(w, k) && SelfApart(k)
    requires TokenAgreement.Agree(TokenAgreement.TViewOf(w, k))
    ensures TokenAgreement.Agree(TokenAgreement.TViewOf(PassOutcome(w, k, md, osp, c), k))
  {
    var (w1, text, renewed) := TokenOutcome(w, k, c);
    TokenSecured(w, k, c);
    KubeAgrees(w, k, c);
    var w2 := KubeOutcome(w1, k, text, renewed);
    KubeKeepsRest(w1, k, text, renewed);
    var w3 := OscOutcome(w2, k, md, osp, text);
    OscKeepsSecrets(w2, k, md, osp, text);
    ProvisionedView(w3, k, md, osp, w3.oscs[OscName(k)]);
    var w' := PassOutcome(w, k, md, osp, c);
    assert w'.tokens == w1.tokens;
    assert TokenAgreement.TViewOf(w', k).tokens == TokensFor(w1, BootstrapKey(k));
  }

  /** A pass leaves deployments and profiles alone. */
  lemma OutcomeKeepsServed(ns: string, w: World, k: Key, osp: OspSpec, c: Choice)
    requires Stable(w, k) && TokenReady(w, k, c) && SelfApart(k) && Served(ns, w, w.mds[k], osp)
    ensures var w' := PassOutcome(w, k, w.mds[k], osp, c);
      w'.mds == w.mds && w'.osps == w.osps && Served(ns, w', w'.mds[k], osp)
  {
    var (w1, text, renewed) := TokenOutcome(w, k, c);
    TokenSecured(w, k, c);
    var w2 := KubeOutcome(w1, k, text, renewed);
    var w3 := OscOutcome(w2, k, w.mds[k], osp, text);
    OscKeepsSecrets(w2, k, w.mds[k], osp, text);
    ProvisionedView(w3, k, w.mds[k], osp, w3.oscs[OscName(k)]);
  }

  // ---------------------------------------------------------------- main results

  /** The world after the rotation check of a pass that starts in `w`. */
  function Checked(w: World, k: Key, osp: OspSpec): World
    requires k in w.mds
  {
    var w1 := Adopted(w, k);
    AfterRotation(w1, k, w1.mds[k], osp)
  }

  lemma AdoptedKeeps(w: World, k: Key)
    requires k in w.mds && !w.mds[k].deleting
    ensures var w1 := Adopted(w, k);
      && Stable(w1, k)
      && w1 == w.(mds := w1.mds, rv := w1.rv)
      && w1.mds[k].annotations == w.mds[k].annotations && w1.mds[k].template == w.mds[k].template
  {
  }

  /** The tokens a pass works with, unchanged. */
  predicate SameTokens(w: World, w2: World, k: Key) {
    TokensFor(w2, BootstrapKey(k)) == TokensFor(w, BootstrapKey(k)) && w2.tokens == w.tokens && w2.clock == w.clock
  }

  lemma RotationKeeps(w: World, k: Key, md: MachineDeployment, osp: OspSpec)
    ensures var w2 := AfterRotation(w, k, md, osp);
      && w2 == w.(oscs := w2.oscs, secrets := w2.secrets)
      && SameTokens(w, w2, k)
      && (KubeTyped(w, k) || (OscName(k) in w.oscs && !Kept(w, k, md, osp)) ==> KubeTyped(w2, k))
      && (OscName(k) in w2.oscs ==> Kept(w2, k, md, osp))
  {
    assert TokensFor(AfterRotation(w, k, md, osp), BootstrapKey(k)) == TokensFor(w, BootstrapKey(k));
  }

  /** Whether the pass has to rotate. */
  predicate Rotates(w: World, k: Key, osp: OspSpec)
    requires k in w.mds
  {
    OscName(k) in w.oscs && w.oscs[OscName(k)].stamp != StampOf(w.mds[k], osp)
  }

  lemma CheckedKeeps(w: World, k: Key, osp: OspSpec)
    requires k in w.mds && !w.mds[k].deleting
    ensures var w2 := Checked(w, k, osp);
      && Stable(w2, k) && SameTokens(w, w2, k)
      && (KubeTyped(w, k) || Rotates(w, k, osp) ==> KubeTyped(w2, k))
      && w2.mds[k].annotations == w.mds[k].annotations && w2.mds[k].template == w.mds[k].template
      && StampOf(w2.mds[k], osp) == StampOf(w.mds[k], osp)
      && w2.mds == Adopted(w, k).mds && w2.osps == w.osps
      && (OscName(k) in w2.oscs ==> Kept(w2, k, w2.mds[k], osp))
  {
    var w1 := Adopted(w, k);
    AdoptedKeeps(w, k);
    assert TokensFor(w1, BootstrapKey(k)) == TokensFor(w, BootstrapKey(k));
    RotationKeeps(w1, k, w1.mds[k], osp);
  }

  /** One failure-free pass over a supported deployment succeeds exactly when its tokens are usable
      and the checked world is ready, and then ends in the outcome computed above. */
  lemma FailureFreePass(ns: string, k: Key, w: World, osp: OspSpec, c: Choice)
    requires k in w.mds && !w.mds[k].deleting && Served(ns, w, w.mds[k], osp)
    requires !c.broken && FreshName(w, k, c) && SelfApart(k)
    requires KubeTyped(w, k) || Rotates(w, k, osp)
    ensures var w2 := Checked(w, k, osp); var md := w2.mds[k];
      && (TokensUsable(w, k) ==> TokenReady(w2, k, c))
      && (var r := Finish(ns, k, ReadMD, w, c);
          if TokensUsable(w, k) && Ready(w2, k, md, osp) then r == (PassOutcome(w2, k, md, osp, c), false) else r.1)
  {
    var w1, w2 := Adopted(w, k), Checked(w, k, osp);
    StartPhase(ns, k, w, osp, c);
    RotationPhase(ns, k, w1, w1.mds[k], osp, c);
    CheckedKeeps(w, k, osp);
    if TokensUsable(w, k) {
      TailOfPass(ns, k, w2, w1.mds[k], osp, c);
    } else {
      TokenPhaseFails(ns, k, w2, w1.mds[k], osp, c);
    }
  }

  /** From any coherent state whose token and kubeconfig agree, one failure-free pass converges
      if and only if the tokens are usable and the world is ready; in particular a provider other
      than edge and a template that generates are enough when the OSC has to be made. */
  lemma OnePassConverges(ns: string, k: Key, w: World, osp: OspSpec, c: Choice)
    requires k in w.mds && !w.mds[k].deleting && Served(ns, w, w.mds[k], osp)
    requires !c.broken && FreshName(w, k, c) && SelfApart(k)
    requires Coherent(k, ViewOf(w, k)) && TokenAgreement.Agree(TokenAgreement.TViewOf(w, k))
    ensures var (w', err) := Finish(ns, k, ReadMD, w, c); var w2 := Checked(w, k, osp);
      && (!err <==> TokensUsable(w, k) && Ready(w2, k, w2.mds[k], osp))
      && (!err ==> Converged(w', k, osp) && Served(ns, w', w'.mds[k], osp))
  {
    var w2 := Checked(w, k, osp);
    FailureFreePass(ns, k, w, osp, c);
    CheckedKeeps(w, k, osp);
    CheckedFine(w, k, osp);
    if TokensUsable(w, k) && Ready(w2, k, w2.mds[k], osp) {
      ReadyConverges(w2, k, osp, c);
      OutcomeKeepsServed(ns, w2, k, osp, c);
    }
  }

  lemma ReadyConverges(w: World, k: Key, osp: OspSpec, c: Choice)
    requires Stable(w, k) && TokenReady(w, k, c) && KubeTyped(w, k) && SelfApart(k)
    requires OscName(k) in w.oscs ==> Kept(w, k, w.mds[k], osp)
    requires Coherent(k, ViewOf(w, k)) && TokenAgreement.Agree(TokenAgreement.TViewOf(w, k))
    ensures Converged(PassOutcome(w, k, w.mds[k], osp, c), k, osp)
  {
    OutcomeSettled(w, k, osp, c);
    OutcomeCoherent(w, k, w.mds[k], osp, c);
    OutcomeAgrees(w, k, w.mds[k], osp, c);
  }

  /** A rotation clears whatever was there; otherwise nothing changes. */
  lemma CheckedFine(w: World, k: Key, osp: OspSpec)
    requires k in w.mds
    requires Rotates(w, k, osp)
          || (Coherent(k, ViewOf(w, k)) && TokenAgreement.Agree(TokenAgreement.TViewOf(w, k)))
    ensures Coherent(k, ViewOf(Checked(w, k, osp), k))
    ensures TokenAgreement.Agree(TokenAgreement.TViewOf(Checked(w, k, osp), k))
  {
    var w1 := Adopted(w, k);
    assert StampOf(w1.mds[k], osp) == StampOf(w.mds[k], osp);
    if OscName(k) in w1.oscs && !Kept(w1, k, w1.mds[k], osp) {
      assert ViewOf(Cleared(w1, k), k) == View(None, None, None);
      assert TokenAgreement.TViewOf(Cleared(w1, k), k).kube == None;
    } else {
      assert ViewOf(w1, k) == ViewOf(w, k);
      assert TokenAgreement.TViewOf(w1, k) == TokenAgreement.TViewOf(w, k);
    }
  }

  lemma RotatedIsReady(w: World, k: Key, osp: OspSpec)
    requires k in w.mds && !w.mds[k].deleting && SelfApart(k) && Rotates(w, k, osp)
    ensures var w2 := Checked(w, k, osp);
      Ready(w2, k, w2.mds[k], osp) <==> Generatable(k, w.mds[k], osp) && !EdgeBlocked(w, k, w.mds[k])
  {
    AdoptedKeeps(w, k);
    var w2 := Checked(w, k, osp);
    assert w2 == Cleared(Adopted(w, k), k);
    assert EdgeName(k) in w2.secrets <==> EdgeName(k) in w.secrets;
  }

  /** Rotation heals: from any state at all with an OSC of another stamp, however incoherent its
      secrets and kubeconfig, one failure-free pass converges if and only if the tokens are usable
      and the new OSC can be made: its user data generates and no edge script is in the way. */
  lemma RotationHeals(ns: string, k: Key, w: World, osp: OspSpec, c: Choice)
    requires k in w.mds && !w.mds[k].deleting && Served(ns, w, w.mds[k], osp)
    requires !c.broken && FreshName(w, k, c) && SelfApart(k)
    requires Rotates(w, k, osp)
    ensures var (w', err) := Finish(ns, k, ReadMD, w, c);
      && (!err <==> TokensUsable(w, k) && Generatable(k, w.mds[k], osp) && !EdgeBlocked(w, k, w.mds[k]))
      && (!err ==> Converged(w', k, osp) && Served(ns, w', w'.mds[k], osp))
  {
    var w2 := Checked(w, k, osp);
    FailureFreePass(ns, k, w, osp, c);
    CheckedKeeps(w, k, osp);
    CheckedFine(w, k, osp);
    RotatedIsReady(w, k, osp);
    if TokensUsable(w, k) && Ready(w2, k, w2.mds[k], osp) {
      ReadyConverges(w2, k, osp, c);
      OutcomeKeepsServed(ns, w2, k, osp, c);
    }
  }

  /** A settled deployment is a fixpoint: another failure-free pass at the same clock changes
      nothing at all, token and kubeconfig included. */
  lemma SettledIsFixpoint(ns: string, k: Key, w: World, osp: OspSpec, c: Choice)
    requires Settled(w, k, osp) && Served(ns, w, w.mds[k], osp) && !c.broken && SelfApart(k)
    ensures Finish(ns, k, ReadMD, w, c) == (w, false)
  {
    var text :| Secured(w, k, text);
    var tokens := TokensFor(w, BootstrapKey(k));
    var n := OnlyToken(tokens);
    assert TokenReady(w, k, c);
    assert TokenOutcome(w, k, c) == (w, Text(tokens[n]), true);
    FailureFreePass(ns, k, w, osp, c);
    assert Checked(w, k, osp) == w;
  }
}
