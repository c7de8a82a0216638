/** What a pass reports and what it leaves behind, spelled out field by field. */
module Outcomes {
  import opened Names
  import opened Cluster
  import opened Protocol
  import opened NoOrphans
  import opened Coherence
  import opened TokenLifetime
  import opened Pass
  import opened Phases
  import opened Convergence
  import Finalizers

  // ---------------------------------------------------------------- a reported success

  /** The deployment exists and nobody asked to delete it. */
  ghost predicate Live(w: World, k: Key) {
    k in w.mds && !w.mds[k].deleting
  }

  /** Everything a deployment needs is there. */
  ghost predicate Stored(w: World, k: Key) {
    && HasFin(w, k)
    && OscName(k) in w.oscs && ProvName(k) in w.secrets && BootName(k) in w.secrets && KubeName(k) in w.secrets
  }

  /** Others let `k`, its finalizer and its objects be; they may do anything else. */
  ghost predicate Spares(k: Key, w: World, w': World) {
    && (Live(w, k) ==> Live(w', k))
    && (HasFin(w, k) ==> HasFin(w', k))
    && (OscName(k) in w.oscs ==> OscName(k) in w'.oscs)
    && forall slot :: slot != OscSlot && SecretName(k, slot) in w.secrets ==> SecretName(k, slot) in w'.secrets
  }

  /** What is already there when a pass of a live deployment is at `pc`. */
  ghost predicate Reached(w: World, k: Key, pc: PC) {
    var kube := KubeName(k) in w.secrets;
    var osc := kube && OscName(k) in w.oscs;
    match pc
    case Done(err) => err || Stored(w, k)
    case ReadMD => Live(w, k)
    case AddFin(md) => Live(w, k) && FINALIZER in md.finalizers
    case CleanDel(_, _) => false
    case RemoveFin(_) => false
    case OscGet(_, _, _) => HasFin(w, k) && kube
    case ReadExternal(_, _, _) => HasFin(w, k) && kube
    case EdgeGet(_, _, _) => HasFin(w, k) && kube
    case EdgeCreate(_, _, _) => HasFin(w, k) && kube
    case OscCreate(_, _, _) => HasFin(w, k) && kube
    case OscReread(_, _) => HasFin(w, k) && osc
    case CloudGet(_, _, _, slot) => HasFin(w, k) && osc && (slot != ProvSlot ==> ProvName(k) in w.secrets)
    case CloudCreate(_, _, _, slot) => HasFin(w, k) && osc && (slot != ProvSlot ==> ProvName(k) in w.secrets)
    case _ => HasFin(w, k)
  }

  lemma {:induction false} SparedStaysReached(k: Key, w: World, w': World, pc: PC)
    requires Reached(w, k, pc) && Spares(k, w, w') && !pc.Done?
    ensures Reached(w', k, pc)
  {
    assert KubeName(k) == SecretName(k, KubeSlot) && ProvName(k) == SecretName(k, ProvSlot);
  }

  lemma {:induction false} EarlyStep(ns: string, k: Key, w: World, pc: PC, fault: Fault, c: Choice)
    requires pc.ReadMD? || pc.AddFin? || pc.FetchOSP? || pc.RotGet? || pc.RotDel?
    requires Reached(w, k, pc)
    ensures var (w', pc') := WorkerStep(ns, k, w, pc, fault, c); Reached(w', k, pc')
  {
  }

  lemma {:induction false} TokenStep(ns: string, k: Key, w: World, pc: PC, fault: Fault, c: Choice)
    requires pc.TokenList? || pc.TokenCreate? || pc.TokenRenew? || pc.KubeGet? || pc.KubeCreate? || pc.KubeUpdate?
    requires Reached(w, k, pc)
    ensures var (w', pc') := WorkerStep(ns, k, w, pc, fault, c); Reached(w', k, pc')
  {
  }

  lemma {:induction false} OscStep(ns: string, k: Key, w: World, pc: PC, fault: Fault, c: Choice)
    requires pc.OscGet? || pc.ReadExternal? || pc.EdgeGet? || pc.EdgeCreate? || pc.OscCreate?
    requires Reached(w, k, pc)
    ensures var (w', pc') := WorkerStep(ns, k, w, pc, fault, c); Reached(w', k, pc')
  {
  }

  lemma {:induction false} SecretStep(ns: string, k: Key, w: World, pc: PC, fault: Fault, c: Choice)
    requires pc.OscReread? || pc.CloudGet? || pc.CloudCreate?
    requires Reached(w, k, pc)
    ensures var (w', pc') := WorkerStep(ns, k, w, pc, fault, c); Reached(w', k, pc')
  {
  }

  /** A pass of a live deployment that reports success, whatever the profile and the templates are,
      whatever requests failed, and whatever others did as long as they spared `k`, has left the
      finalizer, the OSC, both cloud-config secrets and the kubelet secret in place. */
  lemma {:induction false} SuccessMeansStored(ns: string, k: Key, o: Oracle, pc: PC, w: World, i: nat)
    requires forall i: nat, w: World :: Spares(k, w, o.env(i, w))
    requires Reached(w, k, pc)
    ensures var r := Run(ns, k, o, pc, w, i); !r.err ==> Stored(r.w, k)
    decreases Rank(pc)
  {
    if !pc.Done? {
      var w1 := o.env(i, w);
      assert Spares(k, w, w1);
      SparedStaysReached(k, w, w1, pc);
      if pc.ReadMD? || pc.AddFin? || pc.FetchOSP? || pc.RotGet? || pc.RotDel? {
        EarlyStep(ns, k, w1, pc, o.fault(i), o.choice(i));
      } else if pc.OscReread? || pc.CloudGet? || pc.CloudCreate? {
        SecretStep(ns, k, w1, pc, o.fault(i), o.choice(i));
      } else if pc.OscGet? || pc.ReadExternal? || pc.EdgeGet? || pc.EdgeCreate? || pc.OscCreate? {
        OscStep(ns, k, w1, pc, o.fault(i), o.choice(i));
      } else {
        TokenStep(ns, k, w1, pc, o.fault(i), o.choice(i));
      }
      var (w', pc') := WorkerStep(ns, k, w1, pc, o.fault(i), o.choice(i));
      SuccessMeansStored(ns, k, o, pc', w', i + 1);
    }
  }

  /** A cleanup that reports success, under any interference and faults, has taken the finalizer off. */
  lemma {:induction false} CleanupSuccessMeansReleased(ns: string, k: Key, o: Oracle, pc: PC, w: World, i: nat)
    requires pc.CleanDel? || pc.RemoveFin?
    ensures var r := Run(ns, k, o, pc, w, i); !r.err ==> !HasFin(r.w, k)
    decreases Rank(pc)
  {
    var w1 := o.env(i, w);
    var (w', pc') := WorkerStep(ns, k, w1, pc, o.fault(i), o.choice(i));
    if pc.RemoveFin? {
      ReleaseReported(ns, k, w1, pc, o.fault(i), o.choice(i));
    } else if !pc'.Done? {
      CleanupSuccessMeansReleased(ns, k, o, pc', w', i + 1);
    }
  }

  lemma {:induction false} ReleaseReported(ns: string, k: Key, w: World, pc: PC, fault: Fault, c: Choice)
    requires pc.RemoveFin?
    ensures var (w', pc') := WorkerStep(ns, k, w, pc, fault, c);
      pc' == Done(true) || (pc' == Done(false) && !HasFin(w', k))
  {
    assert FINALIZER !in Finalizers.RemoveFinalizer(pc.md.finalizers, FINALIZER);
  }

  /** A deployment that is gone, or that is leaving without the finalizer, needs nothing. */
  lemma {:induction false} NothingToDo(ns: string, k: Key, w: World, c: Choice)
    requires k in w.mds ==> w.mds[k].deleting && FINALIZER !in w.mds[k].finalizers
    ensures Finish(ns, k, ReadMD, w, c) == (w, false)
  {
    OneStep(ns, k, ReadMD, w, Done(false), w, c);
  }

  // ---------------------------------------------------------------- profiles

  /** The profile that the annotations name, in the namespace they name or else in the controller's. */
  lemma OspKeyIs(ns: string, md: MachineDeployment)
    ensures var a, name := md.annotations, "k8c.io/operating-system-profile";
      OspKey(ns, md).name == if name in a then a[name] else ""
    ensures var a, custom := md.annotations, "k8c.io/operating-system-profile-namespace";
      OspKey(ns, md).ns == if custom in a && a[custom] != "" then a[custom] else ns
  {
  }

  /** The profile supports the decoded operating system and provider. */
  lemma ServedIs(ns: string, w: World, md: MachineDeployment, osp: OspSpec)
    ensures Served(ns, w, md, osp) <==>
      && OspKey(ns, md) in w.osps && w.osps[OspKey(ns, md)] == osp
      && exists p :: md.template.decoded == Some(p) && p.os == osp.osName && p.cloud in osp.clouds
  {
  }

  /** A missing profile, or one that does not support the deployment, fails the pass before any object
      is made or deleted. */
  lemma {:induction false} UnservedFails(ns: string, k: Key, w: World, c: Choice)
    requires Live(w, k) && forall osp :: !Served(ns, w, w.mds[k], osp)
    ensures Finish(ns, k, ReadMD, w, c) == (Adopted(w, k), true)
  {
    var w1, md := Adopted(w, k), w.mds[k];
    AdoptPhase(ns, k, w, c);
    AdoptedKeeps(w, k);
    assert OspKey(ns, w1.mds[k]) == OspKey(ns, md);
    if OspKey(ns, md) in w.osps {
      assert !Served(ns, w, md, w.osps[OspKey(ns, md)]);
    }
    OneStep(ns, k, FetchOSP(w1.mds[k]), w1, Done(true), w1, c);
  }

  /** A failure-free pass of a live deployment succeeds if and only if its profile serves it, its
      tokens are usable, and the world is ready after the rotation check. */
  lemma {:induction false} PassSucceedsIff(ns: string, k: Key, w: World, c: Choice)
    requires Live(w, k) && !c.broken && FreshName(w, k, c) && SelfApart(k)
    requires forall osp :: Served(ns, w, w.mds[k], osp) ==> KubeTyped(w, k) || Rotates(w, k, osp)
    ensures !Finish(ns, k, ReadMD, w, c).1 <==>
      exists osp :: Served(ns, w, w.mds[k], osp) && TokensUsable(w, k)
        && var w2 := Checked(w, k, osp); Ready(w2, k, w2.mds[k], osp)
  {
    if osp :| Served(ns, w, w.mds[k], osp) {
      FailureFreePass(ns, k, w, osp, c);
      assert forall other :: Served(ns, w, w.mds[k], other) ==> other == osp;
    } else {
      UnservedFails(ns, k, w, c);
    }
  }

  /** The utility a machine is provisioned with: cloud-init everywhere but on Flatcar, there what the
      template names, or else ignition. */
  lemma UtilityIs(osName: string, t: Template)
    ensures osName != "flatcar" ==> ProvisioningUtility(osName, t) == Some("cloud-init")
    ensures osName == "flatcar" && t.strict && t.decoded.Some? ==>
      var named := t.decoded.value.flatcarUtility;
      && (named == Some("") ==> ProvisioningUtility(osName, t) == Some("ignition"))
      && (named.Some? && named.value != "" ==> ProvisioningUtility(osName, t) == named)
      && (named.None? ==> ProvisioningUtility(osName, t) == None)
    ensures osName == "flatcar" && (!t.strict || t.decoded.None?) ==> ProvisioningUtility(osName, t) == None
  {
  }

  /** A profile that names a utility refuses machines of another one; one that names none refuses nobody
      whose utility is known. */
  lemma RefusedUtility(md: MachineDeployment, osp: OspSpec)
    ensures osp.osName != "flatcar" ==>
      (UtilityAccepted(md, osp) <==> osp.utility == "" || osp.utility == "cloud-init")
    ensures osp.osName == "flatcar" && md.template.strict && md.template.decoded.Some?
        && md.template.decoded.value.flatcarUtility == Some("")
      ==> (UtilityAccepted(md, osp) <==> osp.utility == "" || osp.utility == "ignition")
    ensures ProvisioningUtility(osp.osName, md.template).None? ==> !UtilityAccepted(md, osp)
  {
  }

  /** User data generates from a stored OSC if the template decodes and the OSC's utility is the machine's. */
  lemma GeneratesIs(md: MachineDeployment, spec: OscSpec)
    requires spec.osp.osName != "flatcar"
    ensures Generates(md, spec) <==> md.template.strict && spec.utility == "cloud-init"
  {
  }

  /** Edge deployments are those of the provider with that name. */
  lemma EdgeIs(md: MachineDeployment)
    ensures IsEdge(md) <==> exists p :: md.template.decoded == Some(p) && p.cloud == "edge"
  {
  }

  // ---------------------------------------------------------------- what is stored

  function RevisionOf(a: Annotations): string {
    if REVISION_ANNOTATION in a then a[REVISION_ANNOTATION] else ""
  }

  /** A rotation happens exactly when revision, annotations or profile version of the stored OSC differ. */
  lemma RotatesIs(w: World, k: Key, osp: OspSpec)
    requires k in w.mds && OscName(k) in w.oscs
    ensures var a, stamp := w.mds[k].annotations, w.oscs[OscName(k)].stamp;
      Rotates(w, k, osp) <==>
        || stamp.revision != RevisionOf(a)
        || stamp.hash != a || stamp.version != osp.version
  {
  }

  /** The OSC that a pass makes: its stamp, and everything it was generated from, the text of the one
      token included. */
  ghost predicate MadeFor(w: World, k: Key, md: MachineDeployment, osp: OspSpec) {
    OscName(k) in w.oscs &&
    var osc := w.oscs[OscName(k)];
    && osc.stamp.revision == RevisionOf(md.annotations)
    && osc.stamp.hash == md.annotations && osc.stamp.version == osp.version
    && osc.spec.key == k && osc.spec.annotations == md.annotations && osc.spec.template == md.template
    && osc.spec.osp == osp
    && osc.spec.utility == (if osp.utility == "" then "cloud-init" else osp.utility)
    && (exists n :: n in w.tokens && w.tokens[n].owner == BootstrapKey(k))
    && forall n :: n in w.tokens && w.tokens[n].owner == BootstrapKey(k) ==>
         osc.spec.token == w.tokens[n].id + "." + w.tokens[n].secret
  }

  /** A cloud-config secret that a pass makes: stamped like the OSC, for this deployment and slot, from
      the stored OSC and the deployment's template. */
  ghost predicate SecretMadeFor(w: World, k: Key, md: MachineDeployment, osp: OspSpec, slot: Slot)
    requires slot == ProvSlot || slot == BootSlot
  {
    SecretName(k, slot) in w.secrets && OscName(k) in w.oscs &&
    var secret := w.secrets[SecretName(k, slot)];
    && secret.CloudConfig?
    && secret.stamp.revision == RevisionOf(md.annotations)
    && secret.stamp.hash == md.annotations && secret.stamp.version == osp.version
    && secret.data.key == k && secret.data.slot == slot
    && secret.data.spec == w.oscs[OscName(k)].spec && secret.data.template == md.template
  }

  /** What a successful failure-free pass makes, it makes for this deployment, profile and token. */
  lemma {:induction false} WhatAPassMakes(ns: string, k: Key, w: World, osp: OspSpec, c: Choice)
    requires Live(w, k) && Served(ns, w, w.mds[k], osp) && SelfApart(k)
    requires !c.broken && FreshName(w, k, c) && (KubeTyped(w, k) || Rotates(w, k, osp))
    ensures var w2 := Checked(w, k, osp); var (w', err) := Finish(ns, k, ReadMD, w, c);
      !err ==>
        && (OscName(k) !in w2.oscs ==> MadeFor(w', k, w.mds[k], osp))
        && (ProvName(k) !in w2.secrets ==> SecretMadeFor(w', k, w.mds[k], osp, ProvSlot))
        && (BootName(k) !in w2.secrets ==> SecretMadeFor(w', k, w.mds[k], osp, BootSlot))
  {
    var w2 := Checked(w, k, osp);
    FailureFreePass(ns, k, w, osp, c);
    CheckedKeeps(w, k, osp);
    if TokensUsable(w, k) {
      OutcomeMade(w2, k, w2.mds[k], osp, c);
    }
  }

  lemma {:induction false} OutcomeMade(w: World, k: Key, md: MachineDeployment, osp: OspSpec, c: Choice)
    requires TokenReady(w, k, c) && KubeTyped(w, k) && SelfApart(k)
    ensures var w' := PassOutcome(w, k, md, osp, c);
      && (OscName(k) !in w.oscs ==> MadeFor(w', k, md, osp))
      && (ProvName(k) !in w.secrets ==> SecretMadeFor(w', k, md, osp, ProvSlot))
      && (BootName(k) !in w.secrets ==> SecretMadeFor(w', k, md, osp, BootSlot))
  {
    OutcomeView(w, k, md, osp, c);
    if OscName(k) !in w.oscs { OutcomeOsc(w, k, md, osp, c); }
  }

  lemma {:induction false} OutcomeOsc(w: World, k: Key, md: MachineDeployment, osp: OspSpec, c: Choice)
    requires TokenReady(w, k, c) && SelfApart(k) && OscName(k) !in w.oscs
    ensures MadeFor(PassOutcome(w, k, md, osp, c), k, md, osp)
  {
    var (w1, text, renewed) := TokenOutcome(w, k, c);
    TokenSecured(w, k, c);
    var w2 := KubeOutcome(w1, k, text, renewed);
    KubeKeepsRest(w1, k, text, renewed);
    var w3 := OscOutcome(w2, k, md, osp, text);
    OscKeepsSecrets(w2, k, md, osp, text);
    var osc := NewOSC(k, md, osp, text);
    assert w3.oscs == w.oscs[OscName(k) := osc];
    ProvisionedView(w3, k, md, osp, osc);
    NewOscMadeFor(Provisioned(w3, k, md, osp, osc), k, md, osp, text, w1);
  }

  lemma {:induction false} NewOscMadeFor(w: World, k: Key, md: MachineDeployment, osp: OspSpec, text: string, w1: World)
    requires w.tokens == w1.tokens && Secured(w1, k, text)
    requires OscName(k) in w.oscs && w.oscs[OscName(k)] == NewOSC(k, md, osp, text)
    ensures MadeFor(w, k, md, osp)
  {
    var tokens := TokensFor(w1, BootstrapKey(k));
    OneKey(tokens);
    var n := OnlyToken(tokens);
    assert n in w.tokens && w.tokens[n].owner == BootstrapKey(k);
    forall m | m in w.tokens && w.tokens[m].owner == BootstrapKey(k)
      ensures w.oscs[OscName(k)].spec.token == w.tokens[m].id + "." + w.tokens[m].secret
    {
      assert m in tokens && Text(tokens[m]) == text;
    }
  }

  // ---------------------------------------------------------------- tokens

  /** The last full second within an hour, in nanoseconds. */
  function HourFrom(now: int): int {
    (now + 3_600_000_000_000) / 1_000_000_000 * 1_000_000_000
  }

  /** Half an hour in nanoseconds is the limit: a token with that much left is used as it is, without a
      write; one with less is pushed to the full second at or before an hour from now. */
  lemma {:induction false} RenewalLimit(w: World, k: Key, c: Choice)
    requires TokenReady(w, k, c) && |TokensFor(w, BootstrapKey(k))| == 1
    ensures var (w', text, renewed) := TokenOutcome(w, k, c);
      exists n :: n in w.tokens && w.tokens[n].owner == BootstrapKey(k) && w.tokens[n].expiry.Some?
        && text == w.tokens[n].id + "." + w.tokens[n].secret
        && if w.tokens[n].expiry.value - w.clock >= 1_800_000_000_000 then w' == w
           else n in w'.tokens && w'.tokens[n].expiry == Some(HourFrom(w.clock))
  {
    var tokens := TokensFor(w, BootstrapKey(k));
    OneKey(tokens);
    var n := OnlyToken(tokens);
    assert n in w.tokens;
  }

  /** A new token is labelled with the key, carries the random text, and lives for the same time. */
  lemma {:induction false} NewTokenIs(w: World, k: Key, c: Choice)
    requires TokenReady(w, k, c) && |TokensFor(w, BootstrapKey(k))| == 0
    ensures var (w', text, renewed) := TokenOutcome(w, k, c);
      var n := "bootstrap-token-" + c.id;
      && w'.tokens.Keys == w.tokens.Keys + {n} && n !in w.tokens
      && w'.tokens[n].owner == BootstrapKey(k) && w'.tokens[n].id == c.id && w'.tokens[n].secret == c.secret
      && w'.tokens[n].expiry == Some(HourFrom(w.clock))
      && text == c.id + "." + c.secret && !renewed
  {
  }
}
