/** Coherence: without an OSC there is no cloud-config secret, and a cloud-config secret was
    generated from the stored OSC and carries its stamp. Every fault and crash keeps this,
    except an interruption between the deletes of a rotation. */
module Coherence {
  import opened Names
  import opened Cluster
  import opened Protocol
  import opened NoOrphans

  /** The OSC and the two cloud-config secrets of one deployment. */
  datatype View = View(osc: Option<OSC>, prov: Option<Secret>, boot: Option<Secret>)

  function Find<T>(m: map<string, T>, n: string): Option<T> {
    if n in m then Some(m[n]) else None
  }

  function ViewOf(w: World, k: Key): View {
    View(Find(w.oscs, OscName(k)), Find(w.secrets, ProvName(k)), Find(w.secrets, BootName(k)))
  }

  predicate Fits(k: Key, slot: Slot, osc: OSC, secret: Option<Secret>) {
    secret.Some? ==>
      && secret.value.CloudConfig?
      && secret.value.stamp == osc.stamp
      && secret.value.data.spec == osc.spec
      && secret.value.data.key == k && secret.value.data.slot == slot
  }

  predicate Coherent(k: Key, v: View) {
    match v.osc
    case None => v.prov.None? && v.boot.None?
    case Some(osc) => Fits(k, ProvSlot, osc, v.prov) && Fits(k, BootSlot, osc, v.boot)
  }

  /** The rotation has deleted the OSC but not yet both secrets. */
  predicate InWindow(pc: PC) {
    pc.RotDel? && (pc.slot == ProvSlot || pc.slot == BootSlot)
  }

  /** What holds of the objects of `k` while its worker is at `pc`. */
  predicate Fine(k: Key, v: View, pc: PC) {
    match pc
    case RotDel(_, _, ProvSlot) => v.osc.None?
    case RotDel(_, _, BootSlot) => v.osc.None? && v.prov.None?
    case RotDel(_, _, KubeSlot) => v.osc.None? && Coherent(k, v)
    case CloudGet(md, osp, osc, _) => v.osc == Some(osc) && osc.stamp == StampOf(md, osp) && Coherent(k, v)
    case CloudCreate(md, osp, osc, _) => v.osc == Some(osc) && osc.stamp == StampOf(md, osp) && Coherent(k, v)
    case _ => Coherent(k, v) && (Rotated(pc) && v.osc.Some? ==> v.osc.value.stamp == StampOf(pc.md, pc.osp))
  }

  /** Past the rotation check, so a stored OSC has the stamp of this pass. */
  predicate Rotated(pc: PC) {
    || pc.TokenList? || pc.TokenCreate? || pc.TokenRenew? || pc.KubeGet? || pc.KubeCreate?
    || pc.KubeUpdate? || pc.OscGet? || pc.ReadExternal? || pc.EdgeGet? || pc.EdgeCreate?
    || pc.OscCreate? || pc.OscReread?
  }

  /** The deployment exists, carries the finalizer, and nobody asked to delete it. */
  ghost predicate Stable(w: World, k: Key) {
    HasFin(w, k) && !w.mds[k].deleting
  }

  predicate Cleaning(pc: PC) {
    pc.CleanDel? || pc.RemoveFin?
  }

  /** What every step keeps for one deployment, until it is harmed. */
  ghost predicate Inv(keys: set<Key>, s: System, k: Key) {
    && Owned(keys, s)
    && (Cleaning(PCOf(s, k)) ==> !Stable(s.w, k))
    && (Stable(s.w, k) ==> Fine(k, ViewOf(s.w, k), PCOf(s, k)))
  }

  /** A fault or crash that leaves a rotation between its deletes. */
  predicate Interrupts(s: System, e: Event) {
    match e
    case Step(k, fault, _) =>
      var pc := PCOf(s, k);
      && pc.RotDel?
      && match pc.slot {
           case OscSlot => fault == AckLost
           case ProvSlot => fault != NoFault
           case BootSlot => fault == Lost
           case KubeSlot => false
         }
    case Crash(k) => InWindow(PCOf(s, k))
    case _ => false
  }

  /** An interruption of `k` that leaves a secret behind without its OSC. */
  ghost predicate Harms(s: System, e: Event, k: Key) {
    var v := ViewOf(s.w, k);
    var left := v.prov.Some? || v.boot.Some?;
    && Stable(s.w, k) && Interrupts(s, e) && e.key == k
    && match e
       case Step(_, fault, _) => (
         match PCOf(s, k).slot
         case OscSlot => v.osc.Some? && left
         case ProvSlot => if fault == Lost then left else v.boot.Some?
         case _ => v.boot.Some?)
       case _ => left
  }

  // ---------------------------------------------------------------- steps of the own worker

  /** Requests that touch the three objects of `k`, all from its own worker. */
  predicate Touches(pc: PC) {
    pc.OscCreate? || pc.CloudCreate? || pc.RotDel? || pc.CleanDel?
  }

  lemma UntouchedView(ns: string, k: Key, w: World, pc: PC, fault: Fault, c: Choice)
    requires !pc.Done? && !Touches(pc) && CloudFree(k, k)
    ensures ViewOf(WorkerStep(ns, k, w, pc, fault, c).0, k) == ViewOf(w, k)
  {
  }

  /** What a read tells the worker about its OSC. */
  predicate Honest(v: View, pc: PC, r: Response) {
    pc.RotGet? || pc.OscGet? || pc.OscReread? ==>
      && (r.IsOSC? ==> v.osc == Some(r.osc))
      && (r.NotFound? ==> v.osc.None?)
  }

  lemma RepliesAreHonest(ns: string, k: Key, w: World, pc: PC, fault: Fault, c: Choice)
    requires !pc.Done?
    ensures Honest(ViewOf(w, k), pc, Reply(w, RequestOf(ns, k, pc, w.clock, c), fault))
  {
  }

  lemma AdvanceStaysFine(k: Key, v: View, pc: PC, r: Response, now: int, c: Choice)
    requires !pc.Done? && !Touches(pc) && Honest(v, pc, r) && Fine(k, v, pc)
    ensures Fine(k, v, Continue(k, pc, r, now, c))
  {
  }

  function Drop(v: View, slot: Slot): View {
    match slot
    case OscSlot => v.(osc := None)
    case ProvSlot => v.(prov := None)
    case BootSlot => v.(boot := None)
    case KubeSlot => v
  }

  lemma DeleteView(k: Key, w: World, slot: Slot, fault: Fault)
    requires CloudFree(k, k)
    ensures ViewOf(WorldAfter(w, DeleteSlot(k, slot), fault), k)
         == if fault == Lost then ViewOf(w, k) else Drop(ViewOf(w, k), slot)
  {
  }

  lemma CreateOscView(k: Key, w: World, osc: OSC, fault: Fault)
    ensures var v, w' := ViewOf(w, k), WorldAfter(w, CreateOSC(OscName(k), osc), fault);
      ViewOf(w', k) == if fault == Lost || v.osc.Some? then v else v.(osc := Some(osc))
  {
  }

  lemma CreateSecretView(k: Key, w: World, slot: Slot, secret: Secret, fault: Fault)
    requires CloudFree(k, k) && secret.CloudConfig? && (slot == ProvSlot || slot == BootSlot)
    ensures var v, v' := ViewOf(w, k), ViewOf(WorldAfter(w, CreateSecret(SecretName(k, slot), secret), fault), k);
      v' == v || v' == (if slot == ProvSlot then v.(prov := Some(secret)) else v.(boot := Some(secret)))
  {
  }

  lemma CreateOscStaysFine(ns: string, k: Key, w: World, pc: PC, fault: Fault, c: Choice)
    requires pc.OscCreate? && Fine(k, ViewOf(w, k), pc)
    ensures var (w', pc') := WorkerStep(ns, k, w, pc, fault, c); Fine(k, ViewOf(w', k), pc')
  {
    CreateOscView(k, w, OSC(StampOf(pc.md, pc.osp), GenerateOsc(k, pc.md, pc.osp, pc.text)), fault);
  }

  lemma CreateCloudStaysFine(ns: string, k: Key, w: World, pc: PC, fault: Fault, c: Choice)
    requires pc.CloudCreate? && (pc.slot == ProvSlot || pc.slot == BootSlot)
    requires CloudFree(k, k) && Fine(k, ViewOf(w, k), pc)
    ensures var (w', pc') := WorkerStep(ns, k, w, pc, fault, c); Fine(k, ViewOf(w', k), pc')
  {
    var secret := CloudSecret(k, pc.md, pc.osp, pc.osc, pc.slot);
    CreateSecretView(k, w, pc.slot, secret, fault);
    assert Fits(k, pc.slot, pc.osc, Some(secret));
  }

  /** The deletes of a rotation keep the window's shape unless they are interrupted. */
  lemma RotationStaysFine(ns: string, k: Key, w: World, pc: PC, fault: Fault, c: Choice)
    requires pc.RotDel? && CloudFree(k, k) && Fine(k, ViewOf(w, k), pc)
    requires pc.slot == OscSlot ==> fault != AckLost
    requires pc.slot == ProvSlot ==> fault == NoFault
    requires pc.slot == BootSlot ==> fault != Lost
    ensures var (w', pc') := WorkerStep(ns, k, w, pc, fault, c); Fine(k, ViewOf(w', k), pc')
  {
    DeleteView(k, w, pc.slot, fault);
    RotationAdvance(k, w, pc, fault, c);
  }

  lemma RotationAdvance(k: Key, w: World, pc: PC, fault: Fault, c: Choice)
    requires pc.RotDel?
    ensures var pc' := Continue(k, pc, Reply(w, DeleteSlot(k, pc.slot), fault), w.clock, c);
      || pc' == Done(true)
      || (fault == NoFault && pc' == match pc.slot
          case OscSlot => RotDel(pc.md, pc.osp, ProvSlot)
          case ProvSlot => RotDel(pc.md, pc.osp, BootSlot)
          case BootSlot => RotDel(pc.md, pc.osp, KubeSlot)
          case KubeSlot => TokenList(pc.md, pc.osp))
    ensures fault == NoFault && pc.slot != OscSlot ==>
      Continue(k, pc, Reply(w, DeleteSlot(k, pc.slot), fault), w.clock, c) != Done(true)
  {
  }

  lemma OwnStepStaysFine(ns: string, s: System, e: Event)
    requires e.Step? && !Interrupts(s, e) && CloudFree(e.key, e.key)
    requires CounterOk(s, e.key) && !Cleaning(PCOf(s, e.key))
    requires Fine(e.key, ViewOf(s.w, e.key), PCOf(s, e.key))
    ensures var s' := Next(ns, s, e); Fine(e.key, ViewOf(s'.w, e.key), PCOf(s', e.key))
  {
    var k, pc := e.key, PCOf(s, e.key);
    if pc.Done? {
    } else if pc.OscCreate? {
      CreateOscStaysFine(ns, k, s.w, pc, e.fault, e.choice);
    } else if pc.CloudCreate? {
      CreateCloudStaysFine(ns, k, s.w, pc, e.fault, e.choice);
    } else if pc.RotDel? {
      RotationStaysFine(ns, k, s.w, pc, e.fault, e.choice);
    } else {
      UntouchedView(ns, k, s.w, pc, e.fault, e.choice);
      RepliesAreHonest(ns, k, s.w, pc, e.fault, e.choice);
      var r := Reply(s.w, RequestOf(ns, k, pc, s.w.clock, e.choice), e.fault);
      AdvanceStaysFine(k, ViewOf(s.w, k), pc, r, s.w.clock, e.choice);
    }
  }

  // ---------------------------------------------------------------- everybody else

  /** A step of another deployment leaves the three objects alone. */
  lemma OthersStepAside(ns: string, keys: set<Key>, s: System, e: Event, k: Key)
    requires Owned(keys, s) && OwnCloud(keys, k)
    requires e.Step? && e.key != k
    ensures ViewOf(Next(ns, s, e).w, k) == ViewOf(s.w, k)
  {
    var j, pc := e.key, PCOf(s, e.key);
    assert CounterOk(s, j);
    if Guarded(pc) {
      assert j in keys && CloudFree(j, k);
      var r := RequestOf(ns, j, pc, s.w.clock, e.choice);
      OtherRequests(ns, j, k, pc, s.w.clock, e.choice);
      OtherView(s.w, k, r, e.fault);
    }
  }

  lemma OtherRequests(ns: string, j: Key, k: Key, pc: PC, now: int, c: Choice)
    requires !pc.Done? && j != k && CloudFree(j, k)
    requires pc.CloudCreate? ==> pc.slot == ProvSlot || pc.slot == BootSlot
    ensures var r := RequestOf(ns, j, pc, now, c);
      && (r.CreateOSC? || r.DeleteOSC? ==> r.name != OscName(k))
      && (r.CreateSecret? || r.UpdateSecret? || r.DeleteSecret? ==>
            r.name != ProvName(k) && r.name != BootName(k))
  {
  }

  lemma OtherView(w: World, k: Key, r: Request, fault: Fault)
    requires r.CreateOSC? || r.DeleteOSC? ==> r.name != OscName(k)
    requires r.CreateSecret? || r.UpdateSecret? || r.DeleteSecret? ==>
               r.name != ProvName(k) && r.name != BootName(k)
    ensures ViewOf(WorldAfter(w, r, fault), k) == ViewOf(w, k)
  {
  }

  /** A deployment without the finalizer owns nothing, so it is coherent when it gets one. */
  lemma NoFinalizerCoherent(keys: set<Key>, s: System, k: Key)
    requires Owned(keys, s) && OwnCloud(keys, k) && !HasFin(s.w, k)
    ensures ViewOf(s.w, k) == View(None, None, None)
    ensures Fine(k, ViewOf(s.w, k), PCOf(s, k))
  {
    if Exists(s.w, k, OscSlot) { OwnHolder(keys, s, k, OscSlot); }
    if Exists(s.w, k, ProvSlot) { OwnHolder(keys, s, k, ProvSlot); }
    if Exists(s.w, k, BootSlot) { OwnHolder(keys, s, k, BootSlot); }
    assert CounterOk(s, k);
  }

  /** A stable deployment was stable before, or had no finalizer, or did not exist. */
  lemma StableBefore(ns: string, s: System, e: Event, k: Key)
    requires Stable(Next(ns, s, e).w, k)
    ensures Stable(s.w, k) || !HasFin(s.w, k)
  {
  }

  lemma WasFine(keys: set<Key>, s: System, k: Key)
    requires Inv(keys, s, k) && OwnCloud(keys, k)
    requires Stable(s.w, k) || !HasFin(s.w, k)
    ensures Fine(k, ViewOf(s.w, k), PCOf(s, k)) && CounterOk(s, k)
    ensures !Cleaning(PCOf(s, k))
  {
    assert CounterOk(s, k);
    if !HasFin(s.w, k) { NoFinalizerCoherent(keys, s, k); }
  }

  lemma OutsideKeepsView(ns: string, s: System, e: Event, k: Key)
    requires !e.Step?
    ensures ViewOf(Next(ns, s, e).w, k) == ViewOf(s.w, k)
    ensures PCOf(Next(ns, s, e), k) == PCOf(s, k)
         || (e.Begin? && PCOf(s, k).Done? && PCOf(Next(ns, s, e), k) == ReadMD)
         || (e.Crash? && e.key == k && PCOf(Next(ns, s, e), k) == Done(true))
  {
  }

  /** An interruption that leaves no secret behind does no harm. */
  lemma HarmlessStaysFine(ns: string, s: System, e: Event, k: Key)
    requires Interrupts(s, e) && e.key == k && Stable(s.w, k) && !Harms(s, e, k) && CloudFree(k, k)
    requires Fine(k, ViewOf(s.w, k), PCOf(s, k))
    ensures var t := Next(ns, s, e); Fine(k, ViewOf(t.w, k), PCOf(t, k))
  {
    if e.Step? {
      var pc := PCOf(s, k);
      DeleteView(k, s.w, pc.slot, e.fault);
      RotationAdvance(k, s.w, pc, e.fault, e.choice);
    }
  }

  lemma OutsideStaysFine(ns: string, s: System, e: Event, k: Key)
    requires !e.Step? && !(e == Crash(k) && InWindow(PCOf(s, k)))
    requires Fine(k, ViewOf(s.w, k), PCOf(s, k))
    ensures var t := Next(ns, s, e); Fine(k, ViewOf(t.w, k), PCOf(t, k))
  {
    OutsideKeepsView(ns, s, e, k);
  }

  lemma OthersStayFine(ns: string, keys: set<Key>, s: System, e: Event, k: Key)
    requires Owned(keys, s) && OwnCloud(keys, k) && e.Step? && e.key != k
    requires Fine(k, ViewOf(s.w, k), PCOf(s, k))
    ensures var t := Next(ns, s, e); Fine(k, ViewOf(t.w, k), PCOf(t, k))
  {
    OthersStepAside(ns, keys, s, e, k);
    assert PCOf(Next(ns, s, e), k) == PCOf(s, k);
  }

  lemma FineNext(ns: string, keys: set<Key>, s: System, e: Event, k: Key)
    requires Inv(keys, s, k) && OwnCloud(keys, k) && k in keys && !Harms(s, e, k)
    requires Stable(Next(ns, s, e).w, k)
    ensures Fine(k, ViewOf(Next(ns, s, e).w, k), PCOf(Next(ns, s, e), k))
  {
    StableBefore(ns, s, e, k);
    WasFine(keys, s, k);
    if (e.Step? || e.Crash?) && e.key == k && Interrupts(s, e) {
      HarmlessStaysFine(ns, s, e, k);
    } else if !e.Step? {
      OutsideStaysFine(ns, s, e, k);
    } else if e.key == k {
      OwnStepStaysFine(ns, s, e);
    } else {
      OthersStayFine(ns, keys, s, e, k);
    }
  }

  /** Cleanup only runs once deletion was asked for, and deletion marks stick. */
  lemma CleaningNext(ns: string, s: System, e: Event, k: Key)
    requires Cleaning(PCOf(s, k)) ==> !Stable(s.w, k)
    requires CounterOk(s, k)
    requires Cleaning(PCOf(Next(ns, s, e), k))
    ensures !Stable(Next(ns, s, e).w, k)
  {
    if Stable(Next(ns, s, e).w, k) { StableBefore(ns, s, e, k); }
  }

  lemma InvNext(ns: string, keys: set<Key>, s: System, e: Event, k: Key)
    requires Inv(keys, s, k) && OwnCloud(keys, k) && k in keys && Within(keys, s, [e]) && !Harms(s, e, k)
    ensures Inv(keys, Next(ns, s, e), k)
  {
    var t := Next(ns, s, e);
    OwnedNext(ns, keys, s, e);
    assert CounterOk(s, k);
    if Cleaning(PCOf(t, k)) { CleaningNext(ns, s, e, k); }
    if Stable(t.w, k) { FineNext(ns, keys, s, e, k); }
  }

  // ---------------------------------------------------------------- over whole runs

  /** Unless its deletion was asked for or its worker is between two deletes, `k` is coherent. */
  ghost predicate Sound(s: System, k: Key) {
    (k in s.w.mds ==> !s.w.mds[k].deleting) && !InWindow(PCOf(s, k)) ==> Coherent(k, ViewOf(s.w, k))
  }

  lemma InvIsSound(keys: set<Key>, s: System, k: Key)
    requires Inv(keys, s, k) && OwnCloud(keys, k)
    ensures Sound(s, k)
  {
    if !HasFin(s.w, k) { NoFinalizerCoherent(keys, s, k); }
  }

  /** One event leaves an incoherent deployment behind if and only if it harms it. */
  lemma HarmsExactly(ns: string, keys: set<Key>, s: System, e: Event, k: Key)
    requires Inv(keys, s, k) && OwnCloud(keys, k) && k in keys && Within(keys, s, [e])
    ensures Harms(s, e, k) <==> !Sound(Next(ns, s, e), k)
  {
    if Harms(s, e, k) {
      assert CloudFree(k, k);
      HarmShows(ns, s, e, k);
    } else {
      InvNext(ns, keys, s, e, k);
      InvIsSound(keys, Next(ns, s, e), k);
    }
  }

  lemma HarmShows(ns: string, s: System, e: Event, k: Key)
    requires Harms(s, e, k) && CloudFree(k, k) && Fine(k, ViewOf(s.w, k), PCOf(s, k))
    ensures !Sound(Next(ns, s, e), k)
  {
    var t := Next(ns, s, e);
    if e.Step? {
      var pc := PCOf(s, k);
      DeleteView(k, s.w, pc.slot, e.fault);
      RotationAdvance(k, s.w, pc, e.fault, e.choice);
    }
    assert t.w.mds == s.w.mds && PCOf(t, k) == Done(true);
  }

  /** No event of the run harms `k`; others may be interrupted, and so may `k` where nothing is left. */
  ghost predicate Unharmed(ns: string, s: System, es: seq<Event>, k: Key)
    decreases |es|
  {
    es == [] || (!Harms(s, es[0], k) && Unharmed(ns, Next(ns, s, es[0]), es[1..], k))
  }

  /** `k` is sound in every state of the run. */
  ghost predicate SoundAlong(ns: string, s: System, es: seq<Event>, k: Key)
    decreases |es|
  {
    Sound(s, k) && (es == [] || SoundAlong(ns, Next(ns, s, es[0]), es[1..], k))
  }

  lemma {:induction false} InvExec(ns: string, keys: set<Key>, s: System, es: seq<Event>, k: Key)
    requires Inv(keys, s, k) && OwnCloud(keys, k) && k in keys && Within(keys, s, es) && Unharmed(ns, s, es, k)
    ensures Inv(keys, Exec(ns, s, es), k)
    decreases |es|
  {
    if es != [] {
      WithinTail(ns, keys, s, es);
      InvNext(ns, keys, s, es[0], k);
      InvExec(ns, keys, Next(ns, s, es[0]), es[1..], k);
    }
  }

  lemma {:induction false} SoundAlongIffUnharmed(ns: string, keys: set<Key>, s: System, es: seq<Event>, k: Key)
    requires Inv(keys, s, k) && OwnCloud(keys, k) && k in keys && Within(keys, s, es)
    ensures SoundAlong(ns, s, es, k) <==> Unharmed(ns, s, es, k)
    decreases |es|
  {
    InvIsSound(keys, s, k);
    if es != [] {
      WithinTail(ns, keys, s, es);
      HarmsExactly(ns, keys, s, es[0], k);
      if !Harms(s, es[0], k) {
        InvNext(ns, keys, s, es[0], k);
        SoundAlongIffUnharmed(ns, keys, Next(ns, s, es[0]), es[1..], k);
      }
    }
  }

  lemma InitialInv(keys: set<Key>, s: System, k: Key)
    requires Initial(s) && s.w.mds.Keys <= keys
    ensures Inv(keys, s, k)
  {
  }

  /** Coherence over every run and interleaving, exactly: a deployment whose names are its own is
      coherent in every state in which it is not being deleted and its worker is not between two
      deletes, if and only if no event harms it. What happens to other deployments does not matter. */
  lemma CoherentRuns(ns: string, keys: set<Key>, s: System, es: seq<Event>, k: Key)
    requires Initial(s) && OwnCloud(keys, k) && k in keys && Within(keys, s, es)
    ensures SoundAlong(ns, s, es, k) <==> Unharmed(ns, s, es, k)
    ensures Unharmed(ns, s, es, k) ==> Sound(Exec(ns, s, es), k)
  {
    InitialInv(keys, s, k);
    SoundAlongIffUnharmed(ns, keys, s, es, k);
    if Unharmed(ns, s, es, k) {
      InvExec(ns, keys, s, es, k);
      InvIsSound(keys, Exec(ns, s, es), k);
    }
  }
}
