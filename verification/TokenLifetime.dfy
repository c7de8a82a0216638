/** Lifetimes of bootstrap tokens over whole runs. */
module TokenLifetime {
  import opened Names
  import opened Cluster
  import opened Protocol
  import opened NoOrphans

  /** A pending renewal may only hit the very token it was computed from. */
  ghost predicate RenewOk(s: System, k: Key) {
    var pc := PCOf(s, k);
    pc.TokenRenew? ==>
      && pc.token.owner == BootstrapKey(k)
      && pc.token.expiry.Some? && pc.token.expiry.value <= s.w.clock + HOUR
      && pc.token.rv < s.w.rv
      && (pc.name in s.w.tokens && s.w.tokens[pc.name].rv == pc.token.rv ==>
            Extends(s.w.tokens[pc.name], pc.token))
  }

  /** The same token, expiring no earlier. */
  predicate Extends(t: Token, later: Token) {
    && t.owner == later.owner && t.id == later.id && t.secret == later.secret
    && (t.expiry.Some? ==> later.expiry.Some? && t.expiry.value <= later.expiry.value)
  }

  ghost predicate TokenOk(w: World, n: string) {
    n in w.tokens ==>
      && w.tokens[n].rv < w.rv
      && w.tokens[n].expiry.Some? && w.tokens[n].expiry.value <= w.clock + HOUR
  }

  ghost predicate Timed(s: System) {
    && (forall n :: TokenOk(s.w, n))
    && (forall k :: RenewOk(s, k))
  }

  /** The expiry written is later than the one it replaces, leaves 30 minutes, and stays within
      the hour although the timestamp drops the fraction of a second. */
  lemma RenewalGains(now: int, expiry: int)
    ensures var e := RenewedExpiry(now);
      && now + HOUR - SECOND < e <= now + HOUR && e % SECOND == 0
      && !CloseToExpiry(now, e)
      && (CloseToExpiry(now, expiry) ==> expiry < e)
  {
  }

  lemma TokenStaysOk(ns: string, s: System, e: Event, n: string)
    requires TokenOk(s.w, n) && (e.Step? ==> RenewOk(s, e.key))
    ensures TokenOk(Next(ns, s, e).w, n)
  {
    if e.Step? && !PCOf(s, e.key).Done? {
      RenewalGains(s.w.clock, 0);
      var r := RequestOf(ns, e.key, PCOf(s, e.key), s.w.clock, e.choice);
      WrittenExpiry(ns, s, e.key, e.choice);
      assert Next(ns, s, e).w == WorldAfter(s.w, r, e.fault);
    }
  }

  lemma WrittenExpiry(ns: string, s: System, k: Key, c: Choice)
    requires RenewOk(s, k) && !PCOf(s, k).Done?
    ensures var r := RequestOf(ns, k, PCOf(s, k), s.w.clock, c);
      r.CreateToken? || r.UpdateToken? ==>
        r.token.expiry.Some? && r.token.expiry.value <= s.w.clock + HOUR
  {
    RenewalGains(s.w.clock, 0);
  }

  lemma RenewStarts(ns: string, s: System, k: Key, fault: Fault, c: Choice)
    requires !PCOf(s, k).Done? && !PCOf(s, k).TokenRenew?
    requires forall n :: TokenOk(s.w, n)
    ensures var (w', pc') := WorkerStep(ns, k, s.w, PCOf(s, k), fault, c);
      pc'.TokenRenew? ==>
        && w' == s.w && pc'.name in s.w.tokens
        && Extends(s.w.tokens[pc'.name], pc'.token) && pc'.token.rv == s.w.tokens[pc'.name].rv < w'.rv
        && pc'.token.owner == BootstrapKey(k) && pc'.token.expiry.value <= s.w.clock + HOUR
  {
    var pc := PCOf(s, k);
    if pc.TokenList? {
      var r := Reply(s.w, ListTokens(BootstrapKey(k)), fault);
      if r.IsTokens? && |r.tokens| == 1 {
        var n := OnlyToken(r.tokens);
        assert TokenOk(s.w, n);
        RenewalGains(s.w.clock, s.w.tokens[n].expiry.value);
      }
    }
  }

  /** Writes give a token a resource version no pending renewal has. */
  lemma PendingStaysOk(ns: string, s: System, e: Event, k: Key)
    requires RenewOk(s, k) && Next(ns, s, e).w.clock >= s.w.clock
    requires PCOf(Next(ns, s, e), k) == PCOf(s, k)
    requires e.Step? ==> e.key != k
    ensures RenewOk(Next(ns, s, e), k)
  {
    var t := Next(ns, s, e);
    if e.Step? && !PCOf(s, e.key).Done? {
      var r := RequestOf(ns, e.key, PCOf(s, e.key), s.w.clock, e.choice);
      assert t.w == WorldAfter(s.w, r, e.fault);
    }
  }

  lemma RenewStaysOk(ns: string, s: System, e: Event, k: Key)
    requires Timed(s)
    ensures RenewOk(Next(ns, s, e), k)
  {
    assert RenewOk(s, k);
    if e.Step? && e.key == k {
      var pc := PCOf(s, k);
      if !pc.Done? && !pc.TokenRenew? { RenewStarts(ns, s, k, e.fault, e.choice); }
    } else {
      var t := Next(ns, s, e);
      if PCOf(t, k).TokenRenew? { PendingStaysOk(ns, s, e, k); }
    }
  }

  lemma TimedNext(ns: string, s: System, e: Event)
    requires Timed(s)
    ensures Timed(Next(ns, s, e))
  {
    forall n ensures TokenOk(Next(ns, s, e).w, n) {
      assert TokenOk(s.w, n);
      if e.Step? { assert RenewOk(s, e.key); }
      TokenStaysOk(ns, s, e, n);
    }
    forall k ensures RenewOk(Next(ns, s, e), k) { RenewStaysOk(ns, s, e, k); }
  }

  lemma {:induction false} TimedExec(ns: string, s: System, es: seq<Event>)
    requires Timed(s)
    ensures Timed(Exec(ns, s, es))
    decreases |es|
  {
    if es != [] {
      TimedNext(ns, s, es[0]);
      TimedExec(ns, Next(ns, s, es[0]), es[1..]);
    }
  }

  /** In every reachable state no token lives beyond the next hour. */
  lemma NoTokenOutlivesTheHour(ns: string, s: System, es: seq<Event>, n: string)
    requires Initial(s)
    ensures var w := Exec(ns, s, es).w;
      n in w.tokens ==> w.tokens[n].expiry.Some? && w.tokens[n].expiry.value <= w.clock + HOUR
  {
    assert Timed(s);
    TimedExec(ns, s, es);
    assert TokenOk(Exec(ns, s, es).w, n);
  }

  /** No event of any kind moves the expiry of a surviving token back or changes the token itself. */
  lemma ExpiryNeverMovesBack(ns: string, s: System, e: Event, n: string)
    requires Timed(s) && n in s.w.tokens && n in Next(ns, s, e).w.tokens
    ensures Extends(s.w.tokens[n], Next(ns, s, e).w.tokens[n])
  {
    if e.Step? && !PCOf(s, e.key).Done? {
      assert RenewOk(s, e.key);
      var pc := PCOf(s, e.key);
      var r := RequestOf(ns, e.key, pc, s.w.clock, e.choice);
      assert Next(ns, s, e).w.tokens == s.w.tokens || Next(ns, s, e).w.tokens == TokensAfter(s.w, r);
      assert r.UpdateToken? ==> pc.TokenRenew?;
    }
  }
}
