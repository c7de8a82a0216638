/** The bootstrap token and the kubelet kubeconfig of a deployment: at most one token per
    bootstrap key, and agreement of the two objects, in every interleaving. */
module TokenAgreement {
  import opened Names
  import opened Cluster
  import opened Protocol
  import opened NoOrphans
  import opened TokenLifetime

  /** The kubelet secret and the labelled tokens of one deployment. */
  datatype TView = TView(kube: Option<Secret>, tokens: map<string, Token>)

  function TViewOf(w: World, k: Key): TView {
    TView(if KubeName(k) in w.secrets then Some(w.secrets[KubeName(k)]) else None,
          TokensFor(w, BootstrapKey(k)))
  }

  /** All labelled tokens read `text`. */
  ghost predicate AllRead(v: TView, text: string) {
    forall n :: n in v.tokens ==> Text(v.tokens[n]) == text
  }

  /** Where both exist, the kubeconfig carries the token. */
  ghost predicate Agree(v: TView) {
    v.kube.Some? ==> v.kube.value.Kubeconfig? && AllRead(v, v.kube.value.token)
  }

  ghost predicate AtMostOne(v: TView) {
    forall m, n :: m in v.tokens && n in v.tokens ==> m == n
  }

  /** A fresh token exists and the kubeconfig has not been written yet. */
  predicate Pending(pc: PC) {
    (pc.KubeGet? && !pc.renewed) || pc.KubeUpdate?
  }

  ghost predicate Fine(v: TView, pc: PC) {
    && AtMostOne(v)
    && (v.kube.Some? ==> v.kube.value.Kubeconfig?)
    && (!Pending(pc) ==> Agree(v))
    && (pc.TokenCreate? ==> v.tokens == map[])
    && (pc.TokenRenew? ==> AllRead(v, Text(pc.token)))
    && (pc.KubeGet? || pc.KubeCreate? || pc.KubeUpdate? ==> AllRead(v, pc.text))
    && (pc.KubeCreate? ==> v.kube.None?)
    && (pc.KubeUpdate? ==> v.kube.Some? && v.kube.value.rv == pc.rv)
  }

  /** A failure between creating a token and writing the kubeconfig. */
  predicate Interrupts(s: System, e: Event) {
    match e
    case Step(k, fault, c) =>
      var pc := PCOf(s, k);
      || (pc.TokenCreate? && (fault == AckLost || (fault == NoFault && c.broken)))
      || (pc.KubeGet? && !pc.renewed && fault != NoFault)
      || (pc.KubeUpdate? && fault == Lost)
    case Crash(k) => Pending(PCOf(s, k))
    case _ => false
  }

  /** An interruption of `k` while its kubeconfig carries another token than the fresh one. */
  ghost predicate Harms(s: System, e: Event, k: Key) {
    var v, pc := TViewOf(s.w, k), PCOf(s, k);
    && Interrupts(s, e) && e.key == k
    && v.kube.Some?
    && if pc.TokenCreate? && e.Step? then
         && TokenSecretName(e.choice) !in s.w.tokens
         && v.kube.value.Kubeconfig? && v.kube.value.token != e.choice.id + "." + e.choice.secret
       else v.tokens != map[] && v.kube.value.Kubeconfig? && v.kube.value.token != pc.text
  }

  // ---------------------------------------------------------------- steps of the own worker

  predicate Touches(pc: PC) {
    || pc.TokenCreate? || pc.TokenRenew? || pc.KubeCreate? || pc.KubeUpdate?
    || (pc.RotDel? && pc.slot == KubeSlot) || (pc.CleanDel? && pc.slot == KubeSlot)
  }

  lemma UntouchedView(ns: string, k: Key, w: World, pc: PC, fault: Fault, c: Choice)
    requires !pc.Done? && !Touches(pc) && KubeFree(k, k)
    requires pc.CloudCreate? ==> pc.slot == ProvSlot || pc.slot == BootSlot
    ensures TViewOf(WorkerStep(ns, k, w, pc, fault, c).0, k) == TViewOf(w, k)
  {
    var r := RequestOf(ns, k, pc, w.clock, c);
    assert TokensAfter(w, r) == w.tokens;
    assert KubeName(k) in SecretsAfter(w, r) <==> KubeName(k) in w.secrets;
    assert KubeName(k) in w.secrets ==> SecretsAfter(w, r)[KubeName(k)] == w.secrets[KubeName(k)];
  }

  /** What the reads of the token protocol tell the worker. */
  predicate Honest(v: TView, pc: PC, r: Response) {
    && (pc.TokenList? && r.IsTokens? ==> r.tokens == v.tokens)
    && (pc.KubeGet? ==>
          && (r.NotFound? ==> v.kube.None?)
          && (r.IsSecret? ==> v.kube == Some(r.secret)))
  }

  lemma RepliesAreHonest(ns: string, k: Key, w: World, pc: PC, fault: Fault, c: Choice)
    requires !pc.Done?
    ensures Honest(TViewOf(w, k), pc, Reply(w, RequestOf(ns, k, pc, w.clock, c), fault))
  {
  }

  lemma AdvanceStaysFine(k: Key, v: TView, pc: PC, r: Response, now: int, c: Choice)
    requires !pc.Done? && !Touches(pc) && Honest(v, pc, r) && Fine(v, pc)
    requires pc.KubeGet? && !pc.renewed ==> !r.Failed?
    requires pc.KubeGet? ==> r.NotFound? || r.IsSecret? || r.Failed?
    ensures Fine(v, Continue(k, pc, r, now, c))
  {
    if pc.TokenList? && r.IsTokens? && |r.tokens| == 1 { OneKey(r.tokens); }
  }

  lemma TokenCreateStaysFine(ns: string, k: Key, w: World, pc: PC, fault: Fault, c: Choice)
    requires pc.TokenCreate? && Fine(TViewOf(w, k), pc)
    requires fault != AckLost && !(fault == NoFault && c.broken)
    ensures var (w', pc') := WorkerStep(ns, k, w, pc, fault, c); Fine(TViewOf(w', k), pc')
  {
    var n, t := TokenSecretName(c), NewToken(k, w.clock, c);
    var (w', pc') := WorkerStep(ns, k, w, pc, fault, c);
    if fault == NoFault && n !in w.tokens {
      assert w'.tokens == w.tokens[n := t.(rv := w.rv)];
      assert TViewOf(w', k).tokens == map[n := t.(rv := w.rv)];
    } else {
      assert w' == w && pc' == Done(true);
    }
  }

  lemma TokenRenewStaysFine(ns: string, s: System, k: Key, fault: Fault, c: Choice)
    requires PCOf(s, k).TokenRenew? && Fine(TViewOf(s.w, k), PCOf(s, k)) && RenewOk(s, k)
    ensures var (w', pc') := WorkerStep(ns, k, s.w, PCOf(s, k), fault, c); Fine(TViewOf(w', k), pc')
  {
    var w, pc := s.w, PCOf(s, k);
    var (w', pc') := WorkerStep(ns, k, w, pc, fault, c);
    var v, v' := TViewOf(w, k), TViewOf(w', k);
    assert v'.kube == v.kube;
    if w'.tokens != w.tokens {
      assert w'.tokens == w.tokens[pc.name := pc.token.(rv := w.rv)];
      assert pc.name in v.tokens;
      assert forall n :: n in v'.tokens <==> n in v.tokens;
      assert AllRead(v', Text(pc.token));
    } else {
      assert v' == v;
    }
  }

  lemma KubeWriteStaysFine(ns: string, k: Key, w: World, pc: PC, fault: Fault, c: Choice)
    requires pc.KubeCreate? || pc.KubeUpdate?
    requires Fine(TViewOf(w, k), pc) && !(pc.KubeUpdate? && fault == Lost)
    ensures var (w', pc') := WorkerStep(ns, k, w, pc, fault, c); Fine(TViewOf(w', k), pc')
  {
    var (w', pc') := WorkerStep(ns, k, w, pc, fault, c);
    assert TViewOf(w', k).tokens == TViewOf(w, k).tokens;
    assert Granted(w, RequestOf(ns, k, pc, w.clock, c));
  }

  lemma KubeDeleteStaysFine(ns: string, k: Key, w: World, pc: PC, fault: Fault, c: Choice)
    requires (pc.RotDel? || pc.CleanDel?) && pc.slot == KubeSlot && Fine(TViewOf(w, k), pc)
    ensures var (w', pc') := WorkerStep(ns, k, w, pc, fault, c); Fine(TViewOf(w', k), pc')
  {
    var (w', pc') := WorkerStep(ns, k, w, pc, fault, c);
    assert TViewOf(w', k).tokens == TViewOf(w, k).tokens;
  }

  lemma OwnStepStaysFine(ns: string, s: System, e: Event)
    requires e.Step? && !Interrupts(s, e) && KubeFree(e.key, e.key)
    requires CounterOk(s, e.key) && RenewOk(s, e.key)
    requires Fine(TViewOf(s.w, e.key), PCOf(s, e.key))
    ensures var s' := Next(ns, s, e); Fine(TViewOf(s'.w, e.key), PCOf(s', e.key))
  {
    var k, pc := e.key, PCOf(s, e.key);
    if pc.Done? {
    } else if pc.TokenCreate? {
      TokenCreateStaysFine(ns, k, s.w, pc, e.fault, e.choice);
    } else if pc.TokenRenew? {
      TokenRenewStaysFine(ns, s, k, e.fault, e.choice);
    } else if pc.KubeCreate? || pc.KubeUpdate? {
      KubeWriteStaysFine(ns, k, s.w, pc, e.fault, e.choice);
    } else if Touches(pc) {
      KubeDeleteStaysFine(ns, k, s.w, pc, e.fault, e.choice);
    } else {
      UntouchedView(ns, k, s.w, pc, e.fault, e.choice);
      RepliesAreHonest(ns, k, s.w, pc, e.fault, e.choice);
      var r := Reply(s.w, RequestOf(ns, k, pc, s.w.clock, e.choice), e.fault);
      AdvanceStaysFine(k, TViewOf(s.w, k), pc, r, s.w.clock, e.choice);
    }
  }

  // ---------------------------------------------------------------- uniqueness under every fault

  /** Kept by every step, interrupted or not. */
  ghost predicate Unique(v: TView, pc: PC) {
    AtMostOne(v) && (pc.TokenCreate? ==> v.tokens == map[])
  }

  lemma OwnStepTokens(ns: string, s: System, k: Key, fault: Fault, c: Choice)
    requires !PCOf(s, k).Done? && RenewOk(s, k)
    ensures var v, v' := TViewOf(s.w, k), TViewOf(WorkerStep(ns, k, s.w, PCOf(s, k), fault, c).0, k);
      forall n :: n in v'.tokens ==> n in v.tokens || (PCOf(s, k).TokenCreate? && n == TokenSecretName(c))
  {
    var r := RequestOf(ns, k, PCOf(s, k), s.w.clock, c);
    assert WorldAfter(s.w, r, fault).tokens == s.w.tokens || WorldAfter(s.w, r, fault).tokens == TokensAfter(s.w, r);
    if r.UpdateToken? { assert PCOf(s, k).TokenRenew?; }
  }

  lemma CreatesOnlyAfterEmptyList(ns: string, k: Key, w: World, pc: PC, fault: Fault, c: Choice)
    requires !pc.Done?
    ensures var (w', pc') := WorkerStep(ns, k, w, pc, fault, c);
      pc'.TokenCreate? ==> pc.TokenList? && TViewOf(w', k).tokens == map[]
  {
  }

  lemma OwnStepStaysUnique(ns: string, s: System, e: Event)
    requires e.Step? && RenewOk(s, e.key) && Unique(TViewOf(s.w, e.key), PCOf(s, e.key))
    ensures var s' := Next(ns, s, e); Unique(TViewOf(s'.w, e.key), PCOf(s', e.key))
  {
    if !PCOf(s, e.key).Done? {
      OwnStepTokens(ns, s, e.key, e.fault, e.choice);
      CreatesOnlyAfterEmptyList(ns, e.key, s.w, PCOf(s, e.key), e.fault, e.choice);
    }
  }

  // ---------------------------------------------------------------- everybody else

  lemma OtherTokenRequests(ns: string, j: Key, k: Key, s: System, c: Choice)
    requires BootstrapKey(j) != BootstrapKey(k) && !PCOf(s, j).Done? && RenewOk(s, j)
    ensures var r := RequestOf(ns, j, PCOf(s, j), s.w.clock, c);
      && (r.CreateToken? || r.UpdateToken? ==> r.token.owner == BootstrapKey(j) != BootstrapKey(k))
      && (r.UpdateToken? && Granted(s.w, r) ==> s.w.tokens[r.name].owner == BootstrapKey(j))
  {
  }

  lemma OtherTokens(w: World, k: Key, r: Request, fault: Fault)
    requires r.CreateToken? || r.UpdateToken? ==> r.token.owner != BootstrapKey(k)
    requires r.UpdateToken? && Granted(w, r) ==> w.tokens[r.name].owner != BootstrapKey(k)
    ensures TokensFor(WorldAfter(w, r, fault), BootstrapKey(k)) == TokensFor(w, BootstrapKey(k))
  {
  }

  /** Another bootstrap key is enough to leave the tokens alone, whatever other names coincide. */
  lemma OthersKeepTokens(ns: string, keys: set<Key>, s: System, e: Event, k: Key)
    requires Owned(keys, s) && Timed(s) && OwnKey(keys, k)
    requires e.Step? && e.key != k
    ensures TViewOf(Next(ns, s, e).w, k).tokens == TViewOf(s.w, k).tokens
    ensures PCOf(Next(ns, s, e), k) == PCOf(s, k)
  {
    var j, pc := e.key, PCOf(s, e.key);
    assert CounterOk(s, j) && RenewOk(s, j);
    if Guarded(pc) {
      assert j in keys;
      OtherTokenRequests(ns, j, k, s, e.choice);
      OtherTokens(s.w, k, RequestOf(ns, j, pc, s.w.clock, e.choice), e.fault);
    }
  }

  lemma OtherSecretRequests(ns: string, j: Key, k: Key, pc: PC, now: int, c: Choice)
    requires BootstrapKey(j) != BootstrapKey(k) && KubeFree(j, k) && !pc.Done?
    ensures var r := RequestOf(ns, j, pc, now, c);
      r.CreateSecret? || r.UpdateSecret? || r.DeleteSecret? ==> r.name != KubeName(k)
  {
    if KubeName(j) == KubeName(k) { CancelRight(BootstrapKey(j), BootstrapKey(k), KUBELET_SUFFIX); }
    assert forall slot :: slot != OscSlot ==> SecretName(j, slot) != KubeName(k);
  }

  lemma OtherView(w: World, k: Key, r: Request, fault: Fault)
    requires r.CreateSecret? || r.UpdateSecret? || r.DeleteSecret? ==> r.name != KubeName(k)
    requires r.CreateToken? || r.UpdateToken? ==> r.token.owner != BootstrapKey(k)
    requires r.UpdateToken? && Granted(w, r) ==> w.tokens[r.name].owner != BootstrapKey(k)
    ensures TViewOf(WorldAfter(w, r, fault), k) == TViewOf(w, k)
  {
    var w' := WorldAfter(w, r, fault);
    assert TokensFor(w', BootstrapKey(k)) == TokensFor(w, BootstrapKey(k));
  }

  lemma OthersStepAside(ns: string, keys: set<Key>, s: System, e: Event, k: Key)
    requires Owned(keys, s) && Timed(s) && OwnKube(keys, k)
    requires e.Step? && e.key != k
    ensures TViewOf(Next(ns, s, e).w, k) == TViewOf(s.w, k)
    ensures PCOf(Next(ns, s, e), k) == PCOf(s, k)
  {
    var j, pc := e.key, PCOf(s, e.key);
    assert CounterOk(s, j) && RenewOk(s, j);
    if Guarded(pc) {
      assert j in keys && KubeFree(j, k);
      OtherTokenRequests(ns, j, k, s, e.choice);
      OtherSecretRequests(ns, j, k, pc, s.w.clock, e.choice);
      OtherView(s.w, k, RequestOf(ns, j, pc, s.w.clock, e.choice), e.fault);
    }
  }

  /** Outside the workers tokens can only disappear. */
  lemma OutsideOnlyDrops(ns: string, s: System, e: Event, k: Key)
    requires !e.Step?
    ensures var v, v' := TViewOf(s.w, k), TViewOf(Next(ns, s, e).w, k);
      && v'.kube == v.kube
      && (forall n :: n in v'.tokens ==> n in v.tokens && v'.tokens[n] == v.tokens[n])
    ensures PCOf(Next(ns, s, e), k) == PCOf(s, k)
         || (PCOf(s, k).Done? && PCOf(Next(ns, s, e), k) == ReadMD)
         || (e.Crash? && e.key == k && PCOf(Next(ns, s, e), k) == Done(true))
  {
  }

  // ---------------------------------------------------------------- over whole runs

  /** Kept for one deployment by every step, whatever happens to the others. */
  ghost predicate UniqueInv(keys: set<Key>, s: System, k: Key) {
    Owned(keys, s) && Timed(s) && Unique(TViewOf(s.w, k), PCOf(s, k))
  }

  /** Kept until the deployment is harmed. */
  ghost predicate Inv(keys: set<Key>, s: System, k: Key) {
    UniqueInv(keys, s, k) && Fine(TViewOf(s.w, k), PCOf(s, k))
  }

  lemma UniqueInvNext(ns: string, keys: set<Key>, s: System, e: Event, k: Key)
    requires UniqueInv(keys, s, k) && OwnKey(keys, k) && Within(keys, s, [e])
    ensures UniqueInv(keys, Next(ns, s, e), k)
  {
    OwnedNext(ns, keys, s, e);
    TimedNext(ns, s, e);
    assert RenewOk(s, k);
    if !e.Step? {
      OutsideOnlyDrops(ns, s, e, k);
    } else if e.key == k {
      OwnStepStaysUnique(ns, s, e);
    } else {
      OthersKeepTokens(ns, keys, s, e, k);
    }
  }

  lemma {:induction false} UniqueInvExec(ns: string, keys: set<Key>, s: System, es: seq<Event>, k: Key)
    requires UniqueInv(keys, s, k) && OwnKey(keys, k) && Within(keys, s, es)
    ensures UniqueInv(keys, Exec(ns, s, es), k)
    decreases |es|
  {
    if es != [] {
      WithinTail(ns, keys, s, es);
      UniqueInvNext(ns, keys, s, es[0], k);
      UniqueInvExec(ns, keys, Next(ns, s, es[0]), es[1..], k);
    }
  }

  lemma InitialInv(keys: set<Key>, s: System, k: Key)
    requires Initial(s) && s.w.mds.Keys <= keys
    ensures Inv(keys, s, k)
  {
  }

  /** However the workers' lists and creates interleave and whatever fails, a bootstrap key that is
      `k`'s own never has two tokens, so the branch that reports more than one is dead for it. Other
      deployments may collide. */
  lemma OneTokenPerKey(ns: string, keys: set<Key>, s: System, es: seq<Event>, k: Key)
    requires Initial(s) && OwnKey(keys, k) && Within(keys, s, es)
    ensures |TokensFor(Exec(ns, s, es).w, BootstrapKey(k))| <= 1
  {
    InitialInv(keys, s, k);
    UniqueInvExec(ns, keys, s, es, k);
    var tokens := TViewOf(Exec(ns, s, es).w, k).tokens;
    if tokens != map[] {
      var n :| n in tokens.Keys;
      assert tokens.Keys == {n};
      assert |tokens| == |tokens.Keys| == 1;
    }
  }

  // ---------------------------------------------------------------- agreement, exactly

  lemma OutsideStaysFine(ns: string, s: System, e: Event, k: Key)
    requires !e.Step? && !(e == Crash(k) && Pending(PCOf(s, k))) && Fine(TViewOf(s.w, k), PCOf(s, k))
    ensures var t := Next(ns, s, e); Fine(TViewOf(t.w, k), PCOf(t, k))
  {
    OutsideOnlyDrops(ns, s, e, k);
  }

  /** Without an older kubeconfig that differs, an interruption does no harm. */
  lemma HarmlessStaysFine(ns: string, s: System, e: Event, k: Key)
    requires Interrupts(s, e) && e.key == k && !Harms(s, e, k) && Fine(TViewOf(s.w, k), PCOf(s, k))
    ensures var t := Next(ns, s, e); Fine(TViewOf(t.w, k), PCOf(t, k))
  {
    if e.Step? && PCOf(s, k).TokenCreate? {
      CutCreate(ns, s, e);
    } else {
      CutPending(ns, s, e);
    }
  }

  /** A token create that is cut: the token is there unless its name was taken. */
  lemma CutCreate(ns: string, s: System, e: Event)
    requires e.Step? && PCOf(s, e.key).TokenCreate? && Interrupts(s, e)
    requires Fine(TViewOf(s.w, e.key), PCOf(s, e.key))
    ensures var k, n, t := e.key, TokenSecretName(e.choice), Next(ns, s, e);
      && PCOf(t, k) == Done(true) && TViewOf(t.w, k).kube == TViewOf(s.w, k).kube
      && (n in s.w.tokens ==> TViewOf(t.w, k).tokens == map[])
      && (n !in s.w.tokens ==>
            && TViewOf(t.w, k).tokens.Keys == {n}
            && Text(TViewOf(t.w, k).tokens[n]) == e.choice.id + "." + e.choice.secret)
  {
    var k, n, t := e.key, TokenSecretName(e.choice), Next(ns, s, e);
    var made := NewToken(k, s.w.clock, e.choice);
    assert TViewOf(s.w, k).tokens == map[];
    if n !in s.w.tokens {
      assert t.w.tokens == s.w.tokens[n := made.(rv := s.w.rv)];
      assert TViewOf(t.w, k).tokens == map[n := made.(rv := s.w.rv)];
    } else {
      assert t.w == s.w;
    }
  }

  /** Between create and write, an interruption leaves both objects as they are. */
  lemma CutPending(ns: string, s: System, e: Event)
    requires e.Step? || e.Crash?
    requires Interrupts(s, e) && Pending(PCOf(s, e.key))
    ensures var t := Next(ns, s, e); t.w == s.w && PCOf(t, e.key) == Done(true)
  {
  }

  lemma HarmShows(ns: string, s: System, e: Event, k: Key)
    requires Harms(s, e, k) && Fine(TViewOf(s.w, k), PCOf(s, k))
    ensures var t := Next(ns, s, e); !Pending(PCOf(t, k)) && !Agree(TViewOf(t.w, k))
  {
    var v := TViewOf(Next(ns, s, e).w, k);
    if e.Step? && PCOf(s, k).TokenCreate? {
      CutCreate(ns, s, e);
      assert TokenSecretName(e.choice) in v.tokens;
    } else {
      CutPending(ns, s, e);
      var n :| n in v.tokens;
      assert Text(v.tokens[n]) == PCOf(s, k).text;
    }
  }

  lemma FineNext(ns: string, keys: set<Key>, s: System, e: Event, k: Key)
    requires Inv(keys, s, k) && OwnKube(keys, k) && k in keys && !Harms(s, e, k)
    ensures Fine(TViewOf(Next(ns, s, e).w, k), PCOf(Next(ns, s, e), k))
  {
    assert KubeFree(k, k) && CounterOk(s, k) && RenewOk(s, k);
    if (e.Step? || e.Crash?) && e.key == k && Interrupts(s, e) {
      HarmlessStaysFine(ns, s, e, k);
    } else if !e.Step? {
      OutsideStaysFine(ns, s, e, k);
    } else if e.key == k {
      OwnStepStaysFine(ns, s, e);
    } else {
      OthersStepAside(ns, keys, s, e, k);
    }
  }

  lemma InvNext(ns: string, keys: set<Key>, s: System, e: Event, k: Key)
    requires Inv(keys, s, k) && OwnKube(keys, k) && k in keys && Within(keys, s, [e]) && !Harms(s, e, k)
    ensures Inv(keys, Next(ns, s, e), k)
  {
    UniqueInvNext(ns, keys, s, e, k);
    FineNext(ns, keys, s, e, k);
  }

  /** Outside the pair of requests, token and kubeconfig agree. */
  ghost predicate Sound(s: System, k: Key) {
    !Pending(PCOf(s, k)) ==> Agree(TViewOf(s.w, k))
  }

  /** One event ends in disagreement if and only if it harms the deployment. */
  lemma HarmsExactly(ns: string, keys: set<Key>, s: System, e: Event, k: Key)
    requires Inv(keys, s, k) && OwnKube(keys, k) && k in keys && Within(keys, s, [e])
    ensures Harms(s, e, k) <==> !Sound(Next(ns, s, e), k)
  {
    if Harms(s, e, k) { HarmShows(ns, s, e, k); } else { InvNext(ns, keys, s, e, k); }
  }

  ghost predicate Unharmed(ns: string, s: System, es: seq<Event>, k: Key)
    decreases |es|
  {
    es == [] || (!Harms(s, es[0], k) && Unharmed(ns, Next(ns, s, es[0]), es[1..], k))
  }

  ghost predicate SoundAlong(ns: string, s: System, es: seq<Event>, k: Key)
    decreases |es|
  {
    Sound(s, k) && (es == [] || SoundAlong(ns, Next(ns, s, es[0]), es[1..], k))
  }

  lemma {:induction false} InvExec(ns: string, keys: set<Key>, s: System, es: seq<Event>, k: Key)
    requires Inv(keys, s, k) && OwnKube(keys, k) && k in keys && Within(keys, s, es) && Unharmed(ns, s, es, k)
    ensures Inv(keys, Exec(ns, s, es), k)
    decreases |es|
  {
    if es != [] {
      WithinTail(ns, keys, s, es);
      InvNext(ns, keys, s, es[0], k);
      InvExec(ns, keys, Next(ns, s, es[0]), es[1..], k);
    }
  }

  lemma {:induction false} SoundAlongIffUnharmed(ns: string, keys: set<Key>, s: System, es: seq<Event>, k: Key)
    requires Inv(keys, s, k) && OwnKube(keys, k) && k in keys && Within(keys, s, es)
    ensures SoundAlong(ns, s, es, k) <==> Unharmed(ns, s, es, k)
    decreases |es|
  {
    if es != [] {
      WithinTail(ns, keys, s, es);
      HarmsExactly(ns, keys, s, es[0], k);
      if !Harms(s, es[0], k) {
        InvNext(ns, keys, s, es[0], k);
        SoundAlongIffUnharmed(ns, keys, Next(ns, s, es[0]), es[1..], k);
      }
    }
  }

  /** Agreement over every run and interleaving, exactly: token and kubeconfig of a deployment whose
      kubelet name is its own agree in every state in which its worker is not between creating one and
      writing the other, if and only if no event harms it. Tokens may expire and be removed, rotations
      may delete the kubeconfig, and other deployments may be interrupted at any time. */
  lemma AgreementRuns(ns: string, keys: set<Key>, s: System, es: seq<Event>, k: Key)
    requires Initial(s) && OwnKube(keys, k) && k in keys && Within(keys, s, es)
    ensures SoundAlong(ns, s, es, k) <==> Unharmed(ns, s, es, k)
    ensures Unharmed(ns, s, es, k) ==> Sound(Exec(ns, s, es), k)
  {
    InitialInv(keys, s, k);
    SoundAlongIffUnharmed(ns, keys, s, es, k);
    if Unharmed(ns, s, es, k) { InvExec(ns, keys, s, es, k); }
  }
}
