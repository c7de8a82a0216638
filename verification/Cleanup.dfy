/** Cleanup of a deployment that is being deleted: passes can be cut and restarted anywhere, no
    object comes back, and the finalizer goes last. */
module Cleanup {
  import opened Names
  import opened Cluster
  import opened Protocol
  import opened NoOrphans
  import Finalizers

  // ---------------------------------------------------------------- snapshots

  /** A cleanup holds the deployment as it was read; if the version still matches, so does the rest. */
  ghost predicate SnapshotOk(s: System, k: Key) {
    var pc := PCOf(s, k);
    pc.CleanDel? || pc.RemoveFin? ==>
      && pc.md.rv < s.w.rv
      && pc.md.deleting && FINALIZER in pc.md.finalizers
      && (k in s.w.mds && s.w.mds[k].rv == pc.md.rv ==> s.w.mds[k] == pc.md)
  }

  ghost predicate Versioned(s: System) {
    && (forall k :: k in s.w.mds ==> s.w.mds[k].rv < s.w.rv)
    && (forall k :: SnapshotOk(s, k))
  }

  lemma VersionsStayBelow(ns: string, s: System, e: Event, k: Key)
    requires k in s.w.mds ==> s.w.mds[k].rv < s.w.rv
    requires k in Next(ns, s, e).w.mds
    ensures Next(ns, s, e).w.mds[k].rv < Next(ns, s, e).w.rv
  {
  }

  lemma StoredVersion(mds: map<Key, MachineDeployment>, rv: nat, j: Key, md: MachineDeployment, k: Key)
    ensures var t := StoreMD(mds, rv, j, md);
      k in t ==> t[k].rv == rv || (k in mds && t[k] == mds[k])
  {
  }

  /** A written deployment gets a version nobody holds. */
  lemma FreshVersion(ns: string, s: System, e: Event, k: Key)
    ensures var t := Next(ns, s, e);
      s.w.rv <= t.w.rv && (k in t.w.mds ==> t.w.mds[k].rv == s.w.rv || (k in s.w.mds && t.w.mds[k] == s.w.mds[k]))
  {
    var t := Next(ns, s, e);
    if e.Step? && !PCOf(s, e.key).Done? {
      var r := RequestOf(ns, e.key, PCOf(s, e.key), s.w.clock, e.choice);
      assert t.w.mds == s.w.mds || t.w.mds == MdsAfter(s.w, r);
      if r.UpdateMD? && Granted(s.w, r) {
        StoredVersion(s.w.mds, s.w.rv, r.key, r.md.(deleting := s.w.mds[r.key].deleting), k);
      }
    } else if t.w.mds != s.w.mds {
      var md :| t.w.mds == StoreMD(s.w.mds, s.w.rv, e.key, md);
      StoredVersion(s.w.mds, s.w.rv, e.key, md, k);
    }
  }

  lemma SnapshotStaysOk(ns: string, s: System, e: Event, k: Key)
    requires SnapshotOk(s, k) && (k in s.w.mds ==> s.w.mds[k].rv < s.w.rv)
    ensures SnapshotOk(Next(ns, s, e), k)
  {
    var t := Next(ns, s, e);
    FreshVersion(ns, s, e, k);
    if e.Step? && e.key == k && !PCOf(s, k).Done? {
      CleanupCounters(ns, k, s.w, PCOf(s, k), e.fault, e.choice);
    }
  }

  /** A cleanup starts from the stored deployment and keeps that snapshot. */
  lemma CleanupCounters(ns: string, k: Key, w: World, pc: PC, fault: Fault, c: Choice)
    requires !pc.Done?
    ensures var (w', pc') := WorkerStep(ns, k, w, pc, fault, c);
      pc'.CleanDel? || pc'.RemoveFin? ==>
        && w'.mds == w.mds
        && (pc.ReadMD? ==> k in w.mds && pc'.md == w.mds[k] && pc'.md.deleting && FINALIZER in pc'.md.finalizers)
        && (!pc.ReadMD? ==> pc.CleanDel? && pc'.md == pc.md)
  {
  }

  lemma VersionedNext(ns: string, s: System, e: Event)
    requires Versioned(s)
    ensures Versioned(Next(ns, s, e))
  {
    forall k | k in Next(ns, s, e).w.mds ensures Next(ns, s, e).w.mds[k].rv < Next(ns, s, e).w.rv {
      VersionsStayBelow(ns, s, e, k);
    }
    forall k ensures SnapshotOk(Next(ns, s, e), k) {
      assert SnapshotOk(s, k);
      SnapshotStaysOk(ns, s, e, k);
    }
  }

  // ---------------------------------------------------------------- progress

  /** Deletion was asked for and the worker is idle, reading, or cleaning up. */
  ghost predicate Leaving(s: System, k: Key) {
    var pc := PCOf(s, k);
    && (k in s.w.mds ==> s.w.mds[k].deleting)
    && (pc.Done? || pc.ReadMD? || pc.CleanDel? || pc.RemoveFin?)
  }

  /** Objects still to delete, the finalizer included. */
  ghost function Remaining(w: World, k: Key): nat {
    (if Exists(w, k, OscSlot) then 1 else 0) + (if Exists(w, k, ProvSlot) then 1 else 0)
      + (if Exists(w, k, BootSlot) then 1 else 0) + (if Exists(w, k, KubeSlot) then 1 else 0)
      + (if HasFin(w, k) then 1 else 0)
  }

  /** What `w` has of `k` is what `before` had of it, or less. */
  ghost predicate NothingNew(before: World, w: World, k: Key) {
    && (forall slot :: Exists(w, k, slot) ==> Exists(before, k, slot))
    && (HasFin(w, k) ==> HasFin(before, k))
  }

  lemma FewerRemain(before: World, w: World, k: Key)
    requires NothingNew(before, w, k)
    ensures Remaining(w, k) <= Remaining(before, k)
    ensures forall slot :: Exists(before, k, slot) && !Exists(w, k, slot) ==> Remaining(w, k) < Remaining(before, k)
    ensures HasFin(before, k) && !HasFin(w, k) ==> Remaining(w, k) < Remaining(before, k)
  {
    assert Exists(w, k, OscSlot) ==> Exists(before, k, OscSlot);
    assert Exists(w, k, ProvSlot) ==> Exists(before, k, ProvSlot);
    assert Exists(w, k, BootSlot) ==> Exists(before, k, BootSlot);
    assert Exists(w, k, KubeSlot) ==> Exists(before, k, KubeSlot);
    forall slot | Exists(before, k, slot) && !Exists(w, k, slot)
      ensures Remaining(w, k) < Remaining(before, k)
    {
      match slot case OscSlot => case ProvSlot => case BootSlot => case KubeSlot =>
    }
  }

  lemma OthersCreateNothing(ns: string, keys: set<Key>, s: System, e: Event, k: Key, slot: Slot)
    requires Owned(keys, s) && OwnCloud(keys, k) && OwnKube(keys, k) && Leaving(s, k)
    requires Exists(Next(ns, s, e).w, k, slot)
    ensures Exists(s.w, k, slot)
  {
    if slot == OscSlot {
      if !Exists(s.w, k, slot) { NewOsc(ns, s, e, OscName(k)); CreatorIsOther(keys, s, e.key, k, slot, OscSlot); }
    } else if !Exists(s.w, k, slot) {
      NewSecretName(ns, keys, s, e, k, slot);
    }
  }

  lemma CreatorIsOther(keys: set<Key>, s: System, j: Key, k: Key, slot: Slot, made: Slot)
    requires Owned(keys, s) && OwnCloud(keys, k) && OwnKube(keys, k) && Leaving(s, k)
    requires Creates(PCOf(s, j), made) && (slot == OscSlot <==> made == OscSlot)
    ensures if slot == OscSlot then OscName(j) != OscName(k) else SecretName(j, made) != SecretName(k, slot)
  {
    assert CounterOk(s, j) && j != k && j in keys;
    if slot == OscSlot {
      assert CloudFree(j, k);
    } else if SecretName(j, made) == SecretName(k, slot) {
      NameTellsOwner(keys, j, made, k, slot);
    }
  }

  lemma NewSecretName(ns: string, keys: set<Key>, s: System, e: Event, k: Key, slot: Slot)
    requires Owned(keys, s) && OwnCloud(keys, k) && OwnKube(keys, k) && Leaving(s, k)
    requires slot != OscSlot && SecretName(k, slot) !in s.w.secrets
    ensures SecretName(k, slot) !in Next(ns, s, e).w.secrets
  {
    var n := SecretName(k, slot);
    if e.Step? && n in Next(ns, s, e).w.secrets {
      assert CounterOk(s, e.key);
      if Next(ns, s, e).w.secrets[n].EdgeScript? {
        NewEdge(ns, s, e, n);
        assert e.key in keys;
        NameTellsOwner(keys, e.key, slot, k, slot);
      } else {
        var made := NewSecret(ns, s, e, n);
        CreatorIsOther(keys, s, e.key, k, slot, made);
      }
    }
  }

  lemma NewEdge(ns: string, s: System, e: Event, n: string)
    requires e.Step? && CounterOk(s, e.key) && n !in s.w.secrets
    requires n in Next(ns, s, e).w.secrets && Next(ns, s, e).w.secrets[n].EdgeScript?
    ensures PCOf(s, e.key).EdgeCreate? && n == EdgeName(e.key)
  {
  }

  lemma FinalizerNotAdded(ns: string, s: System, e: Event, k: Key)
    requires Leaving(s, k) && !(e.UserCreates? && e.key == k)
    ensures HasFin(Next(ns, s, e).w, k) ==> HasFin(s.w, k)
  {
    if e.Step? && e.key == k && PCOf(s, k).RemoveFin? {
      assert FINALIZER !in Finalizers.RemoveFinalizer(PCOf(s, k).md.finalizers, FINALIZER);
    }
  }

  lemma LeavingStays(ns: string, s: System, e: Event, k: Key)
    requires Leaving(s, k) && !(e.UserCreates? && e.key == k)
    ensures Leaving(Next(ns, s, e), k)
  {
  }

  /** Once a deployment is leaving nothing of it comes back, whoever moves and whatever fails. */
  lemma NothingComesBack(ns: string, keys: set<Key>, s: System, e: Event, k: Key)
    requires Owned(keys, s) && OwnCloud(keys, k) && OwnKube(keys, k) && Leaving(s, k)
    requires !(e.UserCreates? && e.key == k)
    ensures Leaving(Next(ns, s, e), k)
    ensures NothingNew(s.w, Next(ns, s, e).w, k)
    ensures Remaining(Next(ns, s, e).w, k) <= Remaining(s.w, k)
  {
    LeavingStays(ns, s, e, k);
    FinalizerNotAdded(ns, s, e, k);
    forall slot | Exists(Next(ns, s, e).w, k, slot) ensures Exists(s.w, k, slot) {
      OthersCreateNothing(ns, keys, s, e, k, slot);
    }
    FewerRemain(s.w, Next(ns, s, e).w, k);
  }

  /** Each delete that takes effect brings the end closer, even if its answer is lost. */
  lemma DeletesCount(ns: string, keys: set<Key>, s: System, e: Event, k: Key)
    requires Owned(keys, s) && OwnCloud(keys, k) && OwnKube(keys, k) && Leaving(s, k)
    requires e.Step? && e.key == k && e.fault != Lost
    requires PCOf(s, k).CleanDel? && Exists(s.w, k, PCOf(s, k).slot)
    ensures !Exists(Next(ns, s, e).w, k, PCOf(s, k).slot)
    ensures Remaining(Next(ns, s, e).w, k) < Remaining(s.w, k)
  {
    NothingComesBack(ns, keys, s, e, k);
    DeleteEffect(ns, s, e, k);
    FewerRemain(s.w, Next(ns, s, e).w, k);
  }

  lemma DeleteEffect(ns: string, s: System, e: Event, k: Key)
    requires e.Step? && e.key == k && e.fault != Lost && PCOf(s, k).CleanDel?
    ensures !Exists(Next(ns, s, e).w, k, PCOf(s, k).slot)
  {
  }

  /** When the finalizer is taken off, the four objects are gone, and the deployment is gone too or
      keeps exactly its other finalizers. */
  lemma FinalizerGoesLast(ns: string, keys: set<Key>, s: System, e: Event, k: Key)
    requires Owned(keys, s) && Versioned(s) && OwnCloud(keys, k) && OwnKube(keys, k)
    requires HasFin(s.w, k) && !HasFin(Next(ns, s, e).w, k)
    ensures var w := Next(ns, s, e).w;
      && (forall slot :: !Exists(w, k, slot))
      && (if k in w.mds then
            && w.mds[k].deleting
            && (forall f :: f in w.mds[k].finalizers <==> f in s.w.mds[k].finalizers && f != FINALIZER)
          else forall f :: f in s.w.mds[k].finalizers ==> f == FINALIZER)
  {
    assert CounterOk(s, k) && SnapshotOk(s, k);
    FinalizerStays(ns, s, e, k);
    NothingLeft(keys, s, k);
    RemovalEffect(ns, s, e, k);
    OthersLeft(s.w.mds[k].finalizers);
    SameObjects(s.w, Next(ns, s, e).w, k);
  }

  lemma SameObjects(w: World, w': World, k: Key)
    requires w'.oscs == w.oscs && w'.secrets == w.secrets
    ensures forall slot :: Exists(w', k, slot) <==> Exists(w, k, slot)
  {
  }

  /** A worker about to take the finalizer off has deleted everything. */
  lemma NothingLeft(keys: set<Key>, s: System, k: Key)
    requires Owned(keys, s) && OwnCloud(keys, k) && OwnKube(keys, k) && PCOf(s, k).RemoveFin?
    ensures forall slot :: !Exists(s.w, k, slot)
  {
    forall slot ensures !Exists(s.w, k, slot) {
      if Exists(s.w, k, slot) { OwnHolder(keys, s, k, slot); }
    }
  }

  lemma OthersLeft(fs: seq<string>)
    ensures var rest := Finalizers.RemoveFinalizer(fs, FINALIZER);
      && (forall f :: f in rest <==> f in fs && f != FINALIZER)
      && (rest == [] ==> forall f :: f in fs ==> f == FINALIZER)
  {
    var rest := Finalizers.RemoveFinalizer(fs, FINALIZER);
    forall f | f in fs && f != FINALIZER ensures f in rest {}
  }

  lemma RemovalEffect(ns: string, s: System, e: Event, k: Key)
    requires e.Step? && e.key == k && PCOf(s, k).RemoveFin? && SnapshotOk(s, k)
    requires HasFin(s.w, k) && !HasFin(Next(ns, s, e).w, k)
    ensures var w, fs := Next(ns, s, e).w, Finalizers.RemoveFinalizer(s.w.mds[k].finalizers, FINALIZER);
      && w.oscs == s.w.oscs && w.secrets == s.w.secrets
      && (k in w.mds <==> fs != [])
      && (k in w.mds ==> w.mds[k].deleting && w.mds[k].finalizers == fs)
  {
  }

  // ---------------------------------------------------------------- over whole runs

  ghost predicate NotRecreated(es: seq<Event>, k: Key) {
    forall e :: e in es && e.UserCreates? ==> e.key != k
  }

  /** From the moment a deployment is leaving, no run of any length brings an object of it back or
      raises what remains, however often its cleanup is cut and restarted. */
  lemma {:induction false} CleanupIsResumable(ns: string, keys: set<Key>, s: System, es: seq<Event>, k: Key)
    requires Owned(keys, s) && OwnCloud(keys, k) && OwnKube(keys, k) && Within(keys, s, es)
    requires Leaving(s, k) && NotRecreated(es, k)
    ensures var t := Exec(ns, s, es);
      Leaving(t, k) && NothingNew(s.w, t.w, k) && Remaining(t.w, k) <= Remaining(s.w, k)
    decreases |es|
  {
    if es != [] {
      var t := Next(ns, s, es[0]);
      WithinTail(ns, keys, s, es);
      OwnedNext(ns, keys, s, es[0]);
      NothingComesBack(ns, keys, s, es[0], k);
      CleanupIsResumable(ns, keys, t, es[1..], k);
    }
  }

  lemma {:induction false} VersionedExec(ns: string, s: System, es: seq<Event>)
    requires Versioned(s)
    ensures Versioned(Exec(ns, s, es))
    decreases |es|
  {
    if es != [] {
      VersionedNext(ns, s, es[0]);
      VersionedExec(ns, Next(ns, s, es[0]), es[1..]);
    }
  }

  /** In a reachable state, an event that takes the finalizer off finds the four objects gone and
      leaves the other finalizers alone. */
  lemma CleanupEndsClean(ns: string, keys: set<Key>, s: System, es: seq<Event>, e: Event, k: Key)
    requires Initial(s) && OwnCloud(keys, k) && OwnKube(keys, k) && Within(keys, s, es)
    requires var t := Exec(ns, s, es); HasFin(t.w, k) && !HasFin(Next(ns, t, e).w, k)
    ensures var t := Exec(ns, s, es); var w := Next(ns, t, e).w;
      && (forall slot :: !Exists(w, k, slot))
      && (k in w.mds ==>
            forall f :: f in w.mds[k].finalizers <==> f in t.w.mds[k].finalizers && f != FINALIZER)
      && (k !in w.mds ==> forall f :: f in t.w.mds[k].finalizers ==> f == FINALIZER)
  {
    OwnedExec(ns, keys, s, es);
    VersionedExec(ns, s, es);
    FinalizerGoesLast(ns, keys, Exec(ns, s, es), e, k);
  }
}
