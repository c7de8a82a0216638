/** A pass that gets past its token requests secures the token for thirty minutes, counted from
    the moment the pass listed it, against everything that happens afterwards. */
module TokenLease {
  import opened Names
  import opened Cluster
  import opened Protocol
  import opened NoOrphans
  import opened TokenLifetime
  import opened TokenAgreement

  const LEASE := 30 * MINUTE

  ghost predicate Covered(t: Token, since: int) {
    t.expiry.Some? && t.expiry.value >= since + LEASE
  }

  /** Every token of `k` lasts until thirty minutes after `since`. */
  ghost predicate Backed(s: System, k: Key, since: int) {
    && since <= s.w.clock
    && forall n :: n in s.w.tokens && s.w.tokens[n].owner == BootstrapKey(k) ==> Covered(s.w.tokens[n], since)
  }

  /** The pass listed the token at `since` and has not finished its token requests. */
  ghost predicate Securing(s: System, k: Key, since: int) {
    var pc := PCOf(s, k);
    && since <= s.w.clock
    && (pc.TokenList? || pc.TokenCreate? || (pc.TokenRenew? && Covered(pc.token, since)))
  }

  /** New tokens last an hour less the lost fraction of a second. */
  lemma NewTokensCovered(ns: string, s: System, e: Event, since: int, n: string)
    requires since <= s.w.clock && n !in s.w.tokens && n in Next(ns, s, e).w.tokens
    ensures Covered(Next(ns, s, e).w.tokens[n], since)
  {
    RenewalGains(s.w.clock, 0);
    assert e.Step?;
    var r := RequestOf(ns, e.key, PCOf(s, e.key), s.w.clock, e.choice);
    assert r.CreateToken? && Next(ns, s, e).w.tokens == TokensAfter(s.w, r);
  }

  lemma BackedNext(ns: string, s: System, e: Event, k: Key, since: int)
    requires Timed(s) && Backed(s, k, since)
    ensures Backed(Next(ns, s, e), k, since)
  {
    var t := Next(ns, s, e);
    forall n | n in t.w.tokens && t.w.tokens[n].owner == BootstrapKey(k)
      ensures Covered(t.w.tokens[n], since)
    {
      if n in s.w.tokens {
        ExpiryNeverMovesBack(ns, s, e, n);
      } else {
        NewTokensCovered(ns, s, e, since, n);
      }
    }
  }

  lemma {:induction false} BackedExec(ns: string, s: System, es: seq<Event>, k: Key, since: int)
    requires Timed(s) && Backed(s, k, since)
    ensures Backed(Exec(ns, s, es), k, since)
    decreases |es|
  {
    if es != [] {
      TimedNext(ns, s, es[0]);
      BackedNext(ns, s, es[0], k, since);
      BackedExec(ns, Next(ns, s, es[0]), es[1..], k, since);
    }
  }

  /** Leaving the token requests without an error means every token of the key is covered. */
  lemma OwnStepSecures(ns: string, s: System, e: Event, since: int)
    requires e.Step? && Securing(s, e.key, since)
    requires Timed(s) && Unique(TViewOf(s.w, e.key), PCOf(s, e.key))
    ensures var t := Next(ns, s, e);
      PCOf(t, e.key) == Done(true) || Securing(t, e.key, since) || Backed(t, e.key, since)
  {
    var k, pc := e.key, PCOf(s, e.key);
    var v, v' := TViewOf(s.w, k), TViewOf(Next(ns, s, e).w, k);
    OwnStepTokens(ns, s, k, e.fault, e.choice);
    assert forall n :: n in v'.tokens <==>
      n in Next(ns, s, e).w.tokens && Next(ns, s, e).w.tokens[n].owner == BootstrapKey(k);
    match pc
    case TokenList(_, _) => ListSecures(ns, s, e, since);
    case TokenCreate(_, _) =>
      forall n | n in v'.tokens ensures Covered(v'.tokens[n], since) {
        assert n !in v.tokens;
        if n in s.w.tokens { assert s.w.tokens[n].owner != BootstrapKey(k); }
        CreateSecures(ns, s, e, since, n);
      }
    case TokenRenew(_, _, _, _) => RenewSecures(ns, s, e, since);
  }

  lemma CreateSecures(ns: string, s: System, e: Event, since: int, n: string)
    requires e.Step? && PCOf(s, e.key).TokenCreate? && since <= s.w.clock
    requires n in s.w.tokens ==> s.w.tokens[n].owner != BootstrapKey(e.key)
    requires n in TViewOf(Next(ns, s, e).w, e.key).tokens
    ensures Covered(TViewOf(Next(ns, s, e).w, e.key).tokens[n], since)
  {
    if n !in s.w.tokens { NewTokensCovered(ns, s, e, since, n); }
  }

  lemma ListSecures(ns: string, s: System, e: Event, since: int)
    requires e.Step? && PCOf(s, e.key).TokenList? && since <= s.w.clock
    ensures var t := Next(ns, s, e);
      PCOf(t, e.key) == Done(true) || Securing(t, e.key, since) || Backed(t, e.key, since)
  {
    var k := e.key;
    var tokens := TokensFor(s.w, BootstrapKey(k));
    assert Next(ns, s, e).w == s.w;
    if |tokens| == 1 {
      OneKey(tokens);
      var n := OnlyToken(tokens);
      RenewalGains(s.w.clock, 0);
      forall m | m in s.w.tokens && s.w.tokens[m].owner == BootstrapKey(k)
        ensures m == n
      {
        assert m in tokens && n in tokens;
      }
    }
  }

  lemma RenewSecures(ns: string, s: System, e: Event, since: int)
    requires e.Step? && PCOf(s, e.key).TokenRenew? && Securing(s, e.key, since)
    requires Timed(s) && Unique(TViewOf(s.w, e.key), PCOf(s, e.key))
    ensures var t := Next(ns, s, e); PCOf(t, e.key) == Done(true) || Backed(t, e.key, since)
  {
    var k, pc, t := e.key, PCOf(s, e.key), Next(ns, s, e);
    assert RenewOk(s, k);
    if PCOf(t, k) != Done(true) {
      assert t.w.tokens == s.w.tokens[pc.name := pc.token.(rv := s.w.rv)];
      assert pc.name in TViewOf(s.w, k).tokens;
      forall n | n in t.w.tokens && t.w.tokens[n].owner == BootstrapKey(k)
        ensures Covered(t.w.tokens[n], since)
      {
        assert n == pc.name || n in TViewOf(s.w, k).tokens;
      }
    }
  }

  /** The pass keeps going: its worker neither fails nor crashes along the run. */
  ghost predicate Alive(ns: string, s: System, es: seq<Event>, k: Key)
    decreases |es|
  {
    !PCOf(s, k).Done? && (es == [] || Alive(ns, Next(ns, s, es[0]), es[1..], k))
  }

  lemma {:induction false} SecuredOnTheWay(ns: string, keys: set<Key>, s: System, es: seq<Event>, k: Key, since: int)
    requires UniqueInv(keys, s, k) && OwnKey(keys, k) && Within(keys, s, es)
    requires Securing(s, k, since) && Alive(ns, s, es, k)
    ensures var t := Exec(ns, s, es); Securing(t, k, since) || Backed(t, k, since)
    decreases |es|
  {
    if es != [] {
      var e, t := es[0], Next(ns, s, es[0]);
      WithinTail(ns, keys, s, es);
      UniqueInvNext(ns, keys, s, e, k);
      assert !PCOf(t, k).Done?;
      if e.Step? && e.key == k {
        OwnStepSecures(ns, s, e, since);
      } else {
        assert PCOf(t, k) == PCOf(s, k);
        ClockForward(ns, s, e);
      }
      if Backed(t, k, since) {
        BackedExec(ns, t, es[1..], k, since);
      } else {
        SecuredOnTheWay(ns, keys, t, es[1..], k, since);
      }
    }
  }

  lemma ClockForward(ns: string, s: System, e: Event)
    ensures s.w.clock <= Next(ns, s, e).w.clock
  {
  }

  predicate PastTokens(pc: PC) {
    !pc.TokenList? && !pc.TokenCreate? && !pc.TokenRenew?
  }

  lemma Secures(ns: string, keys: set<Key>, s: System, es: seq<Event>, k: Key)
    requires UniqueInv(keys, s, k) && OwnKey(keys, k) && Within(keys, s, es)
    requires PCOf(s, k).TokenList? && Alive(ns, s, es, k) && PastTokens(PCOf(Exec(ns, s, es), k))
    ensures Backed(Exec(ns, s, es), k, s.w.clock) && Timed(Exec(ns, s, es))
  {
    SecuredOnTheWay(ns, keys, s, es, k, s.w.clock);
    TimedExec(ns, s, es);
  }

  /** A pass lists its token at some time and later gets past its token requests, with anything
      interleaved. Then, whatever follows, no token of the key is past its expiry until thirty
      minutes after that listing. */
  lemma TokenCovered(ns: string, keys: set<Key>, s: System, es: seq<Event>, later: seq<Event>, k: Key, n: string)
    requires UniqueInv(keys, s, k) && OwnKey(keys, k) && Within(keys, s, es)
    requires PCOf(s, k).TokenList? && Alive(ns, s, es, k) && PastTokens(PCOf(Exec(ns, s, es), k))
    ensures var t := Exec(ns, s, es + later);
      n in t.w.tokens && t.w.tokens[n].owner == BootstrapKey(k) && t.w.clock <= s.w.clock + LEASE ==>
        t.w.tokens[n].expiry.Some? && t.w.clock <= t.w.tokens[n].expiry.value
  {
    Secures(ns, keys, s, es, k);
    ExecAppend(ns, s, es, later);
    BackedExec(ns, Exec(ns, s, es), later, k, s.w.clock);
  }

  // ---------------------------------------------------------------- one pass after the other

  /** No token of `k` is past its expiry. */
  ghost predicate Unexpired(s: System, k: Key) {
    forall n :: n in s.w.tokens && s.w.tokens[n].owner == BootstrapKey(k) ==>
      s.w.tokens[n].expiry.Some? && s.w.clock <= s.w.tokens[n].expiry.value
  }

  /** Nor in any state along the run. */
  ghost predicate AlwaysUnexpired(ns: string, s: System, es: seq<Event>, k: Key)
    decreases |es|
  {
    Unexpired(s, k) && (es == [] || AlwaysUnexpired(ns, Next(ns, s, es[0]), es[1..], k))
  }

  lemma {:induction false} ClockRunsForward(ns: string, s: System, es: seq<Event>)
    ensures s.w.clock <= Exec(ns, s, es).w.clock
    decreases |es|
  {
    if es != [] {
      ClockForward(ns, s, es[0]);
      ClockRunsForward(ns, Next(ns, s, es[0]), es[1..]);
    }
  }

  lemma {:induction false} LeaseHolds(ns: string, s: System, es: seq<Event>, k: Key, since: int)
    requires Timed(s) && Backed(s, k, since) && Exec(ns, s, es).w.clock <= since + LEASE
    ensures AlwaysUnexpired(ns, s, es, k)
    decreases |es|
  {
    ClockRunsForward(ns, s, es);
    if es != [] {
      TimedNext(ns, s, es[0]);
      BackedNext(ns, s, es[0], k, since);
      LeaseHolds(ns, Next(ns, s, es[0]), es[1..], k, since);
    }
  }

  lemma {:induction false} UnexpiredAppend(ns: string, s: System, es: seq<Event>, fs: seq<Event>, k: Key)
    requires AlwaysUnexpired(ns, s, es, k) && AlwaysUnexpired(ns, Exec(ns, s, es), fs, k)
    ensures AlwaysUnexpired(ns, s, es + fs, k)
    decreases |es|
  {
    if es == [] {
      assert es + fs == fs;
    } else {
      assert (es + fs)[0] == es[0] && (es + fs)[1..] == es[1..] + fs;
      UnexpiredAppend(ns, Next(ns, s, es[0]), es[1..], fs, k);
    }
  }

  /** What happens from a pass's listing until it is past its token requests, and then until the
      listing of the next pass. */
  datatype Round = Round(secure: seq<Event>, rest: seq<Event>)

  /** Everything after the token requests of the first pass. */
  function AfterFirst(rounds: seq<Round>): seq<Event>
    requires rounds != []
  {
    if |rounds| == 1 then rounds[0].rest
    else (rounds[0].rest + rounds[1].secure) + AfterFirst(rounds[1..])
  }

  /** Each pass is past its token requests at most thirty minutes after the listing of the pass before. */
  ghost predicate OnTime(ns: string, s: System, rounds: seq<Round>, k: Key)
    requires rounds != []
    decreases |rounds|
  {
    var t := Exec(ns, s, rounds[0].secure);
    var u := Exec(ns, t, rounds[0].rest);
    && PCOf(s, k).TokenList? && Alive(ns, s, rounds[0].secure, k) && PastTokens(PCOf(t, k))
    && (|rounds| == 1 ==> u.w.clock <= s.w.clock + LEASE)
    && (|rounds| > 1 ==>
          && Exec(ns, u, rounds[1].secure).w.clock <= s.w.clock + LEASE
          && OnTime(ns, u, rounds[1..], k))
  }

  /** A deployment whose passes are on time never has a token past its expiry, in any state from the
      end of the first pass's token requests on, for any number of passes. */
  lemma {:induction false} NoGap(ns: string, keys: set<Key>, s: System, rounds: seq<Round>, k: Key)
    requires UniqueInv(keys, s, k) && OwnKey(keys, k)
    requires rounds != [] && OnTime(ns, s, rounds, k)
    requires forall e :: e in rounds[0].secure + AfterFirst(rounds) && e.UserCreates? ==> e.key in keys
    ensures AlwaysUnexpired(ns, Exec(ns, s, rounds[0].secure), AfterFirst(rounds), k)
    decreases |rounds|
  {
    var first, since := rounds[0], s.w.clock;
    var t := Exec(ns, s, first.secure);
    Secures(ns, keys, s, first.secure, k);
    UniqueInvExec(ns, keys, s, first.secure, k);
    if |rounds| == 1 {
      LeaseHolds(ns, t, first.rest, k, since);
    } else {
      var u, next := Exec(ns, t, first.rest), rounds[1];
      assert AfterFirst(rounds) == (first.rest + next.secure) + AfterFirst(rounds[1..]);
      UniqueInvExec(ns, keys, t, first.rest, k);
      NoGap(ns, keys, u, rounds[1..], k);
      ExecAppend(ns, t, first.rest, next.secure);
      LeaseHolds(ns, t, first.rest + next.secure, k, since);
      UnexpiredAppend(ns, t, first.rest + next.secure, AfterFirst(rounds[1..]), k);
    }
  }
}
