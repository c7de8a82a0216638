/** Two deployments with one bootstrap key: how they come to have two tokens, what that does to every
    later pass, how it ends, and that nothing else leads to it. */
module Collisions {
  import opened Names
  import opened Cluster
  import opened Protocol
  import opened NoOrphans
  import opened Coherence
  import opened TokenLifetime
  import TokenAgreement
  import opened Pass
  import opened Phases
  import opened Convergence
  import opened Scenarios

  // ---------------------------------------------------------------- two tokens

  /** Two tokens of one bootstrap key. */
  ghost predicate Jammed(w: World, owner: string, m: string, n: string) {
    m != n && m in w.tokens && n in w.tokens && w.tokens[m].owner == w.tokens[n].owner == owner
  }

  lemma JammedCount(w: World, owner: string, m: string, n: string)
    requires Jammed(w, owner, m, n)
    ensures |TokensFor(w, owner)| > 1
  {
    var tokens := TokensFor(w, owner);
    assert m in tokens && n in tokens;
    if |tokens| == 1 { OneKey(tokens); }
  }

  /** Only its removal ends a token. */
  lemma TokenSurvives(ns: string, s: System, e: Event, n: string)
    requires n in s.w.tokens && e != DropToken(n)
    ensures n in Next(ns, s, e).w.tokens
  {
    if e.Step? && !PCOf(s, e.key).Done? {
      var r := RequestOf(ns, e.key, PCOf(s, e.key), s.w.clock, e.choice);
      assert Next(ns, s, e).w.tokens == s.w.tokens || Next(ns, s, e).w.tokens == TokensAfter(s.w, r);
    }
  }

  lemma JamNext(ns: string, s: System, e: Event, owner: string, m: string, n: string)
    requires Timed(s) && Jammed(s.w, owner, m, n) && e != DropToken(m) && e != DropToken(n)
    ensures Jammed(Next(ns, s, e).w, owner, m, n)
  {
    TokenSurvives(ns, s, e, m);
    TokenSurvives(ns, s, e, n);
    ExpiryNeverMovesBack(ns, s, e, m);
    ExpiryNeverMovesBack(ns, s, e, n);
  }

  /** While neither token is removed, both stay, over every run. */
  lemma {:induction false} JamStays(ns: string, s: System, es: seq<Event>, owner: string, m: string, n: string)
    requires Timed(s) && Jammed(s.w, owner, m, n) && DropToken(m) !in es && DropToken(n) !in es
    ensures Timed(Exec(ns, s, es)) && Jammed(Exec(ns, s, es).w, owner, m, n)
    decreases |es|
  {
    if es != [] {
      assert es[0] in es;
      TimedNext(ns, s, es[0]);
      JamNext(ns, s, es[0], owner, m, n);
      JamStays(ns, Next(ns, s, es[0]), es[1..], owner, m, n);
    }
  }

  // ---------------------------------------------------------------- what two tokens do

  /** The worker has not got past its token listing. */
  predicate Barred(pc: PC) {
    || pc.Done? || pc.ReadMD? || pc.AddFin? || pc.FetchOSP? || pc.RotGet? || pc.RotDel? || pc.TokenList?
    || pc.CleanDel? || pc.RemoveFin?
  }

  /** Whatever its fault, a listing that would show two tokens fails the pass and changes nothing. */
  lemma ListFails(ns: string, k: Key, w: World, md: MachineDeployment, osp: OspSpec, fault: Fault, c: Choice,
      m: string, n: string)
    requires Jammed(w, BootstrapKey(k), m, n)
    ensures WorkerStep(ns, k, w, TokenList(md, osp), fault, c) == (w, Done(true))
  {
    JammedCount(w, BootstrapKey(k), m, n);
  }

  lemma BarredNext(ns: string, s: System, e: Event, k: Key, m: string, n: string)
    requires Jammed(s.w, BootstrapKey(k), m, n) && Barred(PCOf(s, k))
    ensures Barred(PCOf(Next(ns, s, e), k))
  {
    if e.Step? && e.key == k && PCOf(s, k).TokenList? {
      ListFails(ns, k, s.w, PCOf(s, k).md, PCOf(s, k).osp, e.fault, e.choice, m, n);
    }
  }

  /** As long as both tokens stay, no later pass of a deployment with their key gets past its listing:
      it makes no kubeconfig, no OSC and no cloud-config secret, over every run and under all faults. */
  lemma {:induction false} JamBars(ns: string, s: System, es: seq<Event>, k: Key, m: string, n: string)
    requires Timed(s) && Jammed(s.w, BootstrapKey(k), m, n) && Barred(PCOf(s, k))
    requires DropToken(m) !in es && DropToken(n) !in es
    ensures Barred(PCOf(Exec(ns, s, es), k))
    decreases |es|
  {
    if es != [] {
      assert es[0] in es;
      TimedNext(ns, s, es[0]);
      JamNext(ns, s, es[0], BootstrapKey(k), m, n);
      BarredNext(ns, s, es[0], k, m, n);
      JamBars(ns, Next(ns, s, es[0]), es[1..], k, m, n);
    }
  }

  /** A whole undisturbed pass of a supported deployment fails after its rotation check. */
  lemma JammedPassFails(ns: string, k: Key, w: World, osp: OspSpec, c: Choice, m: string, n: string)
    requires k in w.mds && !w.mds[k].deleting && Served(ns, w, w.mds[k], osp)
    requires Jammed(w, BootstrapKey(k), m, n)
    ensures Finish(ns, k, ReadMD, w, c) == (Checked(w, k, osp), true)
  {
    var w1 := Adopted(w, k);
    StartPhase(ns, k, w, osp, c);
    RotationPhase(ns, k, w1, w1.mds[k], osp, c);
    CheckedKeeps(w, k, osp);
    JammedCount(w, BootstrapKey(k), m, n);
    TokenPhaseFails(ns, k, Checked(w, k, osp), w1.mds[k], osp, c);
  }

  /** Nothing but the removal of one of the two ends it, and one removal is enough. */
  lemma RemovalUnblocks(ns: string, s: System, e: Event, owner: string, m: string, n: string)
    requires Timed(s) && m != n && TokensFor(s.w, owner).Keys == {m, n}
    ensures |TokensFor(Next(ns, s, e).w, owner)| <= 1 <==> e == DropToken(m) || e == DropToken(n)
  {
    assert m in TokensFor(s.w, owner) && n in TokensFor(s.w, owner);
    if e == DropToken(m) || e == DropToken(n) {
      var other := if e == DropToken(m) then n else m;
      var rest := TokensFor(Next(ns, s, e).w, owner);
      assert forall x :: x in rest ==> x in TokensFor(s.w, owner) && x != e.name;
      assert rest.Keys == {other} && |rest| == |rest.Keys|;
    } else {
      JamNext(ns, s, e, owner, m, n);
      JammedCount(Next(ns, s, e).w, owner, m, n);
    }
  }

  // ---------------------------------------------------------------- how it comes about

  /** Both workers list before either creates. */
  ghost function Race(a: Key, b: Key, ca: Choice, cb: Choice): seq<Event> {
    Part(a, ca, 4) + (Part(b, cb, 4) + [Step(a, NoFault, ca), Step(b, NoFault, cb)])
  }

  /** Two deployments that can start their first passes, and two token names nobody uses. */
  ghost predicate Racing(ns: string, s: System, a: Key, b: Key, ospA: OspSpec, ospB: OspSpec, ca: Choice, cb: Choice) {
    && a != b && BootstrapKey(a) == BootstrapKey(b) && PCOf(s, a).Done? && PCOf(s, b).Done?
    && Stable(s.w, a) && Served(ns, s.w, s.w.mds[a], ospA) && OscName(a) !in s.w.oscs
    && Stable(s.w, b) && Served(ns, s.w, s.w.mds[b], ospB) && OscName(b) !in s.w.oscs
    && TokensFor(s.w, BootstrapKey(a)) == map[]
    && TokenSecretName(ca) !in s.w.tokens && TokenSecretName(cb) !in s.w.tokens
    && TokenSecretName(ca) != TokenSecretName(cb)
  }

  /** Two deployments with one bootstrap key can each make a token. From then on, whatever happens,
      every listing for the key fails as long as neither token is removed. */
  lemma {:induction false} CollidingKeysRace(ns: string, s: System, a: Key, b: Key, ospA: OspSpec, ospB: OspSpec,
                                             ca: Choice, cb: Choice, later: seq<Event>)
    requires Timed(s) && Racing(ns, s, a, b, ospA, ospB, ca, cb)
    requires DropToken(TokenSecretName(ca)) !in later && DropToken(TokenSecretName(cb)) !in later
    ensures var t := Exec(ns, s, Race(a, b, ca, cb)); var u := Exec(ns, t, later);
      && TokensFor(t.w, BootstrapKey(a)).Keys == {TokenSecretName(ca), TokenSecretName(cb)}
      && |TokensFor(u.w, BootstrapKey(a))| > 1
      && forall k: Key, fault, c: Choice, md, osp :: BootstrapKey(k) == BootstrapKey(a) ==>
           WorkerStep(ns, k, u.w, TokenList(md, osp), fault, c) == (u.w, Done(true))
  {
    var t, m, n := Exec(ns, s, Race(a, b, ca, cb)), TokenSecretName(ca), TokenSecretName(cb);
    var u := Exec(ns, t, later);
    RaceMakesTwo(ns, s, a, b, ospA, ospB, ca, cb);
    TimedExec(ns, s, Race(a, b, ca, cb));
    JamStays(ns, t, later, BootstrapKey(a), m, n);
    JammedCount(u.w, BootstrapKey(a), m, n);
    forall k: Key, fault, c: Choice, md, osp | BootstrapKey(k) == BootstrapKey(a)
      ensures WorkerStep(ns, k, u.w, TokenList(md, osp), fault, c) == (u.w, Done(true))
    {
      ListFails(ns, k, u.w, md, osp, fault, c, m, n);
    }
  }

  lemma {:induction false} RaceMakesTwo(ns: string, s: System, a: Key, b: Key, ospA: OspSpec, ospB: OspSpec,
                                        ca: Choice, cb: Choice)
    requires Racing(ns, s, a, b, ospA, ospB, ca, cb)
    ensures var t, m, n := Exec(ns, s, Race(a, b, ca, cb)), TokenSecretName(ca), TokenSecretName(cb);
      Jammed(t.w, BootstrapKey(a), m, n) && TokensFor(t.w, BootstrapKey(a)).Keys == {m, n}
  {
    var m := System(s.w, s.pcs[a := TokenCreate(s.w.mds[a], ospA)]);
    SoloPart(ns, s, a, ca, 4);
    TokenStarts(ns, a, s.w, ospA, ca);
    RaceSecond(ns, m, a, b, ospA, ospB, ca, cb);
    ExecAppend(ns, s, Part(a, ca, 4), Part(b, cb, 4) + [Step(a, NoFault, ca), Step(b, NoFault, cb)]);
    TwoMade(s.w, a, b, ca, cb, Exec(ns, s, Race(a, b, ca, cb)).w);
  }

  lemma TwoMade(w: World, a: Key, b: Key, ca: Choice, cb: Choice, w': World)
    requires BootstrapKey(a) == BootstrapKey(b) && TokensFor(w, BootstrapKey(a)) == map[]
    requires TokenSecretName(ca) != TokenSecretName(cb)
    requires w'.tokens == WithToken(WithToken(w, a, ca), b, cb).tokens
    ensures Jammed(w', BootstrapKey(a), TokenSecretName(ca), TokenSecretName(cb))
    ensures TokensFor(w', BootstrapKey(a)).Keys == {TokenSecretName(ca), TokenSecretName(cb)}
  {
    forall x | x in w.tokens
      ensures w.tokens[x].owner != BootstrapKey(a)
    {
      assert x !in TokensFor(w, BootstrapKey(a));
    }
    var tokens := TokensFor(w', BootstrapKey(a));
    assert TokenSecretName(ca) in tokens && TokenSecretName(cb) in tokens;
  }

  lemma {:induction false} RaceSecond(ns: string, m: System, a: Key, b: Key, ospA: OspSpec, ospB: OspSpec, ca: Choice,
      cb: Choice)
    requires a != b && a in m.pcs && a in m.w.mds && m.pcs[a] == TokenCreate(m.w.mds[a], ospA) && PCOf(m, b).Done?
    requires Stable(m.w, b) && Served(ns, m.w, m.w.mds[b], ospB) && OscName(b) !in m.w.oscs
    requires TokensFor(m.w, BootstrapKey(b)) == map[]
    requires TokenSecretName(ca) !in m.w.tokens && TokenSecretName(cb) !in m.w.tokens
    requires TokenSecretName(ca) != TokenSecretName(cb)
    ensures var w := Exec(ns, m, Part(b, cb, 4) + [Step(a, NoFault, ca), Step(b, NoFault, cb)]).w;
      w.tokens == WithToken(WithToken(m.w, a, ca), b, cb).tokens
  {
    var u := System(m.w, m.pcs[b := TokenCreate(m.w.mds[b], ospB)]);
    SoloPart(ns, m, b, cb, 4);
    TokenStarts(ns, b, m.w, ospB, cb);
    ExecAppend(ns, m, Part(b, cb, 4), [Step(a, NoFault, ca)] + [Step(b, NoFault, cb)]);
    ExecAppend(ns, u, [Step(a, NoFault, ca)], [Step(b, NoFault, cb)]);
    ExecOne(ns, u, Step(a, NoFault, ca));
    var v := Next(ns, u, Step(a, NoFault, ca));
    ExecOne(ns, v, Step(b, NoFault, cb));
    CreatesToken(ns, u, a, m.w.mds[a], ospA, ca);
    CreatesToken(ns, v, b, m.w.mds[b], ospB, cb);
    assert [Step(a, NoFault, ca)] + [Step(b, NoFault, cb)] == [Step(a, NoFault, ca), Step(b, NoFault, cb)];
  }

  lemma CreatesToken(ns: string, s: System, k: Key, md: MachineDeployment, osp: OspSpec, c: Choice)
    requires k in s.pcs && s.pcs[k] == TokenCreate(md, osp) && TokenSecretName(c) !in s.w.tokens
    ensures var t := Next(ns, s, Step(k, NoFault, c));
      t.w == WithToken(s.w, k, c) && forall j :: j != k ==> PCOf(t, j) == PCOf(s, j)
  {
  }

  // ---------------------------------------------------------------- exactly when

  /** A cluster with two fresh deployments and the profile of both. */
  function TwinWorld(ns: string, a: Key, b: Key): World {
    var md := MachineDeployment(map[], Template("", Some(Provider("", "", None)), true), [FINALIZER], false, 0);
    World(map[a := md, b := md], map[OspKey(ns, md) := OspSpec("", "", "", [""], false, "")], map[], map[], map[], 0, 1)
  }

  lemma {:induction false} NoCreates(k: Key, c: Choice, n: nat)
    ensures forall e :: e in Part(k, c, n) ==> !e.UserCreates?
  {
    RequestsAreSteps(k, c, n);
  }

  lemma {:induction false} RequestsAreSteps(k: Key, c: Choice, n: nat)
    ensures forall e :: e in Requests(k, c, n) ==> e.Step?
  {
    if n > 0 { RequestsAreSteps(k, c, n - 1); }
  }

  lemma {:induction false} TwinsRace(ns: string, keys: set<Key>, a: Key, b: Key) returns (s: System, es: seq<Event>)
    requires a in keys && b in keys && a != b && BootstrapKey(a) == BootstrapKey(b)
    ensures Initial(s) && Within(keys, s, es) && |TokensFor(Exec(ns, s, es).w, BootstrapKey(a))| > 1
  {
    var w, osp := TwinWorld(ns, a, b), OspSpec("", "", "", [""], false, "");
    var ca, cb := Choice("a", "", false), Choice("b", "", false);
    s, es := System(w, map[]), Race(a, b, ca, cb);
    if TokenSecretName(ca) == TokenSecretName(cb) { CancelLeft("bootstrap-token-", "a", "b"); }
    NoCreates(a, ca, 4);
    NoCreates(b, cb, 4);
    RaceMakesTwo(ns, s, a, b, osp, osp, ca, cb);
    JammedCount(Exec(ns, s, es).w, BootstrapKey(a), TokenSecretName(ca), TokenSecretName(cb));
  }

  /** The key of a deployment never has two tokens, in any reachable state of any run over `keys`, if and
      only if no other of them has that key. */
  lemma OneTokenIffOwnKey(ns: string, keys: set<Key>, k: Key)
    requires k in keys
    ensures OwnKey(keys, k) <==>
      forall s, es :: Initial(s) && Within(keys, s, es) ==> |TokensFor(Exec(ns, s, es).w, BootstrapKey(k))| <= 1
  {
    if OwnKey(keys, k) {
      forall s, es | Initial(s) && Within(keys, s, es)
        ensures |TokensFor(Exec(ns, s, es).w, BootstrapKey(k))| <= 1
      {
        TokenAgreement.OneTokenPerKey(ns, keys, s, es, k);
      }
    } else {
      var j :| j in keys && j != k && BootstrapKey(j) == BootstrapKey(k);
      var s, es := TwinsRace(ns, keys, k, j);
    }
  }
}
