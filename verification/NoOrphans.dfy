/** No orphans: whatever users, workers, faults and crashes do, an object of a deployment only
    exists while a deployment that owns it exists and carries the cleanup finalizer. */
module NoOrphans {
  import opened Names
  import opened Cluster
  import opened Protocol

  ghost predicate HasFin(w: World, k: Key) {
    k in w.mds && FINALIZER in w.mds[k].finalizers
  }

  /** The worker has seen the finalizer in place and may create or delete objects. */
  predicate Guarded(pc: PC) {
    !pc.Done? && !pc.ReadMD? && !pc.AddFin?
  }

  /** The cleanup has already removed this slot. */
  predicate Past(pc: PC, slot: Slot) {
    || pc.RemoveFin?
    || (pc.CleanDel? && Position(slot) < Position(pc.slot))
  }

  function Position(slot: Slot): nat {
    match slot case OscSlot => 0 case ProvSlot => 1 case BootSlot => 2 case KubeSlot => 3
  }

  ghost predicate Holder(s: System, k: Key, slot: Slot) {
    HasFin(s.w, k) && !Past(PCOf(s, k), slot)
  }

  ghost predicate OscHeld(s: System, n: string) {
    exists k :: Holder(s, k, OscSlot) && OscName(k) == n
  }

  ghost predicate SecretHeld(s: System, n: string) {
    exists k, slot :: slot != OscSlot && Holder(s, k, slot) && SecretName(k, slot) == n
  }

  ghost predicate CounterOk(s: System, k: Key) {
    var pc := PCOf(s, k);
    && (Guarded(pc) ==> HasFin(s.w, k))
    && (pc.AddFin? ==> FINALIZER in pc.md.finalizers)
    && (pc.CloudGet? || pc.CloudCreate? ==> pc.slot == ProvSlot || pc.slot == BootSlot)
  }

  ghost predicate Inv(s: System) {
    && (forall k :: CounterOk(s, k))
    && (forall n :: n in s.w.oscs ==> OscHeld(s, n))
    && (forall n :: n in s.w.secrets && !s.w.secrets[n].EdgeScript? ==> SecretHeld(s, n))
  }

  // ---------------------------------------------------------------- one step

  /** The finalizer only goes when the cleanup of its deployment has removed everything. */
  lemma FinalizerStays(ns: string, s: System, e: Event, k: Key)
    requires HasFin(s.w, k) && CounterOk(s, k)
    ensures HasFin(Next(ns, s, e).w, k) || (e.Step? && e.key == k && PCOf(s, k).RemoveFin?)
  {
  }

  /** The counter a step leaves behind is guarded only if the finalizer is in place. */
  lemma StepKeepsCounterOk(ns: string, s: System, e: Event)
    requires e.Step? && CounterOk(s, e.key)
    ensures CounterOk(Next(ns, s, e), e.key)
  {
    var k, pc := e.key, PCOf(s, e.key);
    if !pc.Done? {
      var (w', pc') := WorkerStep(ns, k, s.w, pc, e.fault, e.choice);
      if pc.ReadMD? {
        assert w'.mds == s.w.mds;
      } else if pc.AddFin? {
        assert Guarded(pc') ==> HasFin(w', k);
      } else if !pc.RemoveFin? {
        assert w'.mds == s.w.mds;
        GuardedSlots(k, pc, Reply(s.w, RequestOf(ns, k, pc, s.w.clock, e.choice), e.fault), s.w.clock, e.choice);
      }
    }
  }

  lemma GuardedSlots(k: Key, pc: PC, r: Response, now: int, c: Choice)
    requires Guarded(pc) && !pc.RemoveFin?
    requires pc.CloudGet? || pc.CloudCreate? ==> pc.slot == ProvSlot || pc.slot == BootSlot
    ensures var pc' := Continue(k, pc, r, now, c);
      && !pc'.AddFin?
      && (pc'.CloudGet? || pc'.CloudCreate? ==> pc'.slot == ProvSlot || pc'.slot == BootSlot)
  {
  }

  lemma CountersStayOk(ns: string, s: System, e: Event, k: Key)
    requires CounterOk(s, k) && (e.Step? ==> CounterOk(s, e.key))
    ensures CounterOk(Next(ns, s, e), k)
  {
    if e.Step? && e.key == k {
      StepKeepsCounterOk(ns, s, e);
    } else if HasFin(s.w, k) {
      FinalizerStays(ns, s, e, k);
    }
  }

  /** What a step may remove: a slot of its own deployment that its cleanup or rotation deletes. */
  ghost predicate Gone(w: World, k: Key, slot: Slot) {
    if slot == OscSlot then OscName(k) !in w.oscs else SecretName(k, slot) !in w.secrets
  }

  lemma PastOnlyByDeleting(ns: string, s: System, e: Event, slot: Slot)
    requires e.Step? && !Past(PCOf(s, e.key), slot)
    ensures !Past(PCOf(Next(ns, s, e), e.key), slot) || Gone(Next(ns, s, e).w, e.key, slot)
  {
    var pc := PCOf(s, e.key);
    if !pc.Done? && !pc.CleanDel? {
      assert !Past(WorkerStep(ns, e.key, s.w, pc, e.fault, e.choice).1, slot);
    }
  }

  /** A holder keeps its slot unless this step is its own cleanup removing that very object. */
  lemma HolderStays(ns: string, s: System, e: Event, k: Key, slot: Slot)
    requires Holder(s, k, slot) && CounterOk(s, k)
    ensures Holder(Next(ns, s, e), k, slot) || Gone(Next(ns, s, e).w, k, slot)
  {
    FinalizerStays(ns, s, e, k);
    if e.Step? && e.key == k { PastOnlyByDeleting(ns, s, e, slot); }
  }

  predicate Creates(pc: PC, slot: Slot) {
    match slot
    case OscSlot => pc.OscCreate?
    case KubeSlot => pc.KubeCreate? || pc.KubeUpdate?
    case _ => pc.CloudCreate? && pc.slot == slot
  }

  /** New objects only come from a worker at one of its creating requests. */
  lemma NewOsc(ns: string, s: System, e: Event, n: string)
    requires n !in s.w.oscs && n in Next(ns, s, e).w.oscs
    ensures e.Step? && PCOf(s, e.key).OscCreate? && n == OscName(e.key)
  {
  }

  lemma NewSecret(ns: string, s: System, e: Event, n: string) returns (slot: Slot)
    requires n in s.w.secrets ==> s.w.secrets[n].EdgeScript?
    requires n in Next(ns, s, e).w.secrets && !Next(ns, s, e).w.secrets[n].EdgeScript?
    requires e.Step? ==> CounterOk(s, e.key)
    ensures e.Step? && slot != OscSlot && Creates(PCOf(s, e.key), slot) && n == SecretName(e.key, slot)
  {
    assert e.Step?;
    var pc := PCOf(s, e.key);
    slot := if pc.CloudCreate? then pc.slot else KubeSlot;
  }

  lemma CreatorHolds(ns: string, s: System, e: Event, slot: Slot)
    requires e.Step? && CounterOk(s, e.key) && Creates(PCOf(s, e.key), slot)
    ensures Holder(Next(ns, s, e), e.key, slot)
  {
    FinalizerStays(ns, s, e, e.key);
  }

  lemma OscsStayHeld(ns: string, s: System, e: Event, n: string)
    requires Inv(s) && n in Next(ns, s, e).w.oscs
    ensures OscHeld(Next(ns, s, e), n)
  {
    if n in s.w.oscs {
      var k :| Holder(s, k, OscSlot) && OscName(k) == n;
      HolderStays(ns, s, e, k, OscSlot);
    } else {
      NewOsc(ns, s, e, n);
      CreatorHolds(ns, s, e, OscSlot);
    }
  }

  lemma SecretsStayHeld(ns: string, s: System, e: Event, n: string)
    requires Inv(s) && n in Next(ns, s, e).w.secrets && !Next(ns, s, e).w.secrets[n].EdgeScript?
    ensures SecretHeld(Next(ns, s, e), n)
  {
    if n in s.w.secrets && !s.w.secrets[n].EdgeScript? {
      var k, slot :| slot != OscSlot && Holder(s, k, slot) && SecretName(k, slot) == n;
      HolderStays(ns, s, e, k, slot);
    } else {
      var slot := NewSecret(ns, s, e, n);
      CreatorHolds(ns, s, e, slot);
    }
  }

  lemma InvNext(ns: string, s: System, e: Event)
    requires Inv(s)
    ensures Inv(Next(ns, s, e))
  {
    var s' := Next(ns, s, e);
    forall k ensures CounterOk(s', k) { CountersStayOk(ns, s, e, k); }
    forall n | n in s'.w.oscs ensures OscHeld(s', n) { OscsStayHeld(ns, s, e, n); }
    forall n | n in s'.w.secrets && !s'.w.secrets[n].EdgeScript?
      ensures SecretHeld(s', n)
    {
      SecretsStayHeld(ns, s, e, n);
    }
  }

  lemma {:induction false} InvExec(ns: string, s: System, es: seq<Event>)
    requires Inv(s)
    ensures Inv(Exec(ns, s, es))
    decreases |es|
  {
    if es != [] {
      InvNext(ns, s, es[0]);
      InvExec(ns, Next(ns, s, es[0]), es[1..]);
    }
  }

  // ---------------------------------------------------------------- over whole runs

  /** In every reachable state every owned object belongs to a deployment that exists and holds
      the finalizer, even if several deployments share names. */
  lemma EveryObjectHasAnOwner(ns: string, s: System, es: seq<Event>)
    requires Initial(s)
    ensures var w := Exec(ns, s, es).w;
      && (forall n :: n in w.oscs ==> exists k :: HasFin(w, k) && OscName(k) == n)
      && (forall n :: n in w.secrets && !w.secrets[n].EdgeScript? ==>
            exists k, slot :: slot != OscSlot && HasFin(w, k) && SecretName(k, slot) == n)
  {
    InvExec(ns, s, es);
    var t := Exec(ns, s, es);
    forall n | n in t.w.oscs
      ensures exists k :: HasFin(t.w, k) && OscName(k) == n
    {
      var k :| Holder(t, k, OscSlot) && OscName(k) == n;
      assert HasFin(t.w, k);
    }
    forall n | n in t.w.secrets && !t.w.secrets[n].EdgeScript?
      ensures exists k, slot :: slot != OscSlot && HasFin(t.w, k) && SecretName(k, slot) == n
    {
      var k, slot :| slot != OscSlot && Holder(t, k, slot) && SecretName(k, slot) == n;
      assert HasFin(t.w, k);
    }
  }

  // ---------------------------------------------------------------- with distinct names

  /** Every deployment of the run is one of `keys`. */
  ghost predicate Within(keys: set<Key>, s: System, es: seq<Event>) {
    s.w.mds.Keys <= keys && forall e :: e in es && e.UserCreates? ==> e.key in keys
  }

  lemma NextWithin(ns: string, keys: set<Key>, s: System, e: Event)
    requires Within(keys, s, [e])
    ensures Next(ns, s, e).w.mds.Keys <= keys
  {
    assert e in [e];
    if e.Step? && !PCOf(s, e.key).Done? {
      var r := RequestOf(ns, e.key, PCOf(s, e.key), s.w.clock, e.choice);
      assert r.UpdateMD? && Granted(s.w, r) ==> r.key in keys;
    }
  }

  /** A secret of each kind carries a name of that kind. */
  ghost predicate Named(keys: set<Key>, n: string, secret: Secret) {
    match secret
    case CloudConfig(_, _) => exists k :: k in keys && (n == ProvName(k) || n == BootName(k))
    case Kubeconfig(_, _) => exists k :: k in keys && n == KubeName(k)
    case EdgeScript(_, _) => exists k :: k in keys && n == EdgeName(k)
  }

  ghost predicate Typed(keys: set<Key>, s: System) {
    && s.w.mds.Keys <= keys
    && forall n :: n in s.w.secrets ==> Named(keys, n, s.w.secrets[n])
  }

  lemma WritesAreNamed(ns: string, keys: set<Key>, k: Key, pc: PC, now: int, c: Choice, rv: nat)
    requires k in keys && !pc.Done?
    requires pc.CloudCreate? ==> pc.slot == ProvSlot || pc.slot == BootSlot
    ensures var r := RequestOf(ns, k, pc, now, c);
      r.CreateSecret? || r.UpdateSecret? ==> Named(keys, r.name, StampSecret(r.secret, rv)) && Guarded(pc)
  {
  }

  lemma SecretsStayNamed(ns: string, keys: set<Key>, s: System, e: Event, n: string)
    requires Typed(keys, s) && (e.Step? ==> CounterOk(s, e.key))
    requires n in Next(ns, s, e).w.secrets
    ensures Named(keys, n, Next(ns, s, e).w.secrets[n])
  {
    if e.Step? && Guarded(PCOf(s, e.key)) {
      var k, pc := e.key, PCOf(s, e.key);
      WritesAreNamed(ns, keys, k, pc, s.w.clock, e.choice, s.w.rv);
      assert Next(ns, s, e).w.secrets == s.w.secrets
          || Next(ns, s, e).w.secrets == SecretsAfter(s.w, RequestOf(ns, k, pc, s.w.clock, e.choice));
    } else {
      assert Next(ns, s, e).w.secrets == s.w.secrets;
    }
  }

  lemma TypedNext(ns: string, keys: set<Key>, s: System, e: Event)
    requires Typed(keys, s) && Within(keys, s, [e]) && Inv(s)
    ensures Typed(keys, Next(ns, s, e))
  {
    NextWithin(ns, keys, s, e);
    if e.Step? { assert CounterOk(s, e.key); }
    forall n | n in Next(ns, s, e).w.secrets
      ensures Named(keys, n, Next(ns, s, e).w.secrets[n])
    {
      SecretsStayNamed(ns, keys, s, e, n);
    }
  }

  /** What a run over `keys` keeps. */
  ghost predicate Owned(keys: set<Key>, s: System) {
    Inv(s) && Typed(keys, s)
  }

  lemma OwnedNext(ns: string, keys: set<Key>, s: System, e: Event)
    requires Owned(keys, s) && Within(keys, s, [e])
    ensures Owned(keys, Next(ns, s, e))
  {
    InvNext(ns, s, e);
    TypedNext(ns, keys, s, e);
  }

  lemma {:induction false} OwnedExec(ns: string, keys: set<Key>, s: System, es: seq<Event>)
    requires Owned(keys, s) && Within(keys, s, es)
    ensures Owned(keys, Exec(ns, s, es))
    decreases |es|
  {
    if es != [] {
      WithinTail(ns, keys, s, es);
      OwnedNext(ns, keys, s, es[0]);
      OwnedExec(ns, keys, Next(ns, s, es[0]), es[1..]);
    }
  }

  lemma WithinTail(ns: string, keys: set<Key>, s: System, es: seq<Event>)
    requires Within(keys, s, es) && es != []
    ensures Within(keys, s, [es[0]]) && Within(keys, Next(ns, s, es[0]), es[1..])
  {
    NextWithin(ns, keys, s, es[0]);
  }

  /** The objects of one deployment. */
  ghost predicate Exists(w: World, k: Key, slot: Slot) {
    if slot == OscSlot then OscName(k) in w.oscs else SecretName(k, slot) in w.secrets
  }

  /** An object under a name that is `k`'s own has `k` behind it. */
  lemma OwnHolder(keys: set<Key>, s: System, k: Key, slot: Slot)
    requires Owned(keys, s) && OwnSlot(keys, k, slot) && Exists(s.w, k, slot)
    ensures Holder(s, k, slot)
  {
    if slot == OscSlot {
      var h :| Holder(s, h, OscSlot) && OscName(h) == OscName(k);
      assert h in keys && CloudFree(h, k);
    } else {
      var n := SecretName(k, slot);
      forall j | j in keys ensures EdgeName(j) != n { NameTellsOwner(keys, j, slot, k, slot); }
      assert Named(keys, n, s.w.secrets[n]);
      var h, other :| other != OscSlot && Holder(s, h, other) && SecretName(h, other) == n;
      NameTellsOwner(keys, h, other, k, slot);
    }
  }

  /** No orphans: an object under a name that is `k`'s own exists only while `k` exists and holds the
      finalizer, whatever collisions there are among the names of the others. */
  lemma NoOrphan(ns: string, keys: set<Key>, s: System, es: seq<Event>, k: Key, slot: Slot)
    requires Initial(s) && Within(keys, s, es) && OwnSlot(keys, k, slot)
    ensures Exists(Exec(ns, s, es).w, k, slot) ==> HasFin(Exec(ns, s, es).w, k)
  {
    OwnedExec(ns, keys, s, es);
    if Exists(Exec(ns, s, es).w, k, slot) { OwnHolder(keys, Exec(ns, s, es), k, slot); }
  }
}
