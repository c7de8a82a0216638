/** Names of the objects a MachineDeployment owns.

    The names are plain strings, so two deployments could in principle own the same
    object. This module says exactly when they do. Kubernetes names are ASCII, so a
    character here is a byte of the Go string. */
module Names {

  /** Namespace and name of a MachineDeployment (or of an OperatingSystemProfile). */
  datatype Key = Key(ns: string, name: string)

  /** The four objects removed when a MachineDeployment is cleaned up. */
  datatype Slot = OscSlot | ProvSlot | BootSlot | KubeSlot

  /** Longest bootstrap key that still carries the namespace is one shorter than this. */
  const KEY_LIMIT := 63

  const PROVISIONING_SUFFIX := "-provisioning-config"
  const BOOTSTRAP_SUFFIX := "-bootstrap-config"
  const KUBELET_SUFFIX := "-kubelet-bootstrap-config"

  function OscName(k: Key): string {
    k.name + "-" + k.ns + "-config"
  }

  function ProvName(k: Key): string {
    k.name + "-" + k.ns + PROVISIONING_SUFFIX
  }

  function BootName(k: Key): string {
    k.name + "-" + k.ns + BOOTSTRAP_SUFFIX
  }

  /** Label of the bootstrap token: the namespace is dropped when the joined key is too long. */
  function BootstrapKey(k: Key): string {
    var joined := k.ns + "-" + k.name;
    if |joined| >= KEY_LIMIT then k.name else joined
  }

  function KubeName(k: Key): string {
    BootstrapKey(k) + KUBELET_SUFFIX
  }

  function EdgeName(k: Key): string {
    "edge-provider-script-" + k.name + "-" + k.ns
  }

  /** Name of an owned secret. The OSC is kept in a different kind, under OscName. */
  function SecretName(k: Key, slot: Slot): string
    requires slot != OscSlot
  {
    match slot
    case ProvSlot => ProvName(k)
    case BootSlot => BootName(k)
    case KubeSlot => KubeName(k)
  }

  /** The names of one deployment, and how a joined key of 63 bytes loses its namespace. */
  lemma NamesOf(ns: string, name: string)
    ensures var k := Key(ns, name);
      && OscName(k) == name + "-" + ns + "-config"
      && SecretName(k, ProvSlot) == name + "-" + ns + "-provisioning-config"
      && SecretName(k, BootSlot) == name + "-" + ns + "-bootstrap-config"
      && EdgeName(k) == "edge-provider-script-" + name + "-" + ns
    ensures |ns + "-" + name| <= 62 ==>
      SecretName(Key(ns, name), KubeSlot) == ns + "-" + name + "-kubelet-bootstrap-config"
    ensures |ns + "-" + name| >= 63 ==> SecretName(Key(ns, name), KubeSlot) == name + "-kubelet-bootstrap-config"
  {
  }

  predicate EndsWith(s: string, suffix: string) {
    |suffix| <= |s| && s[|s| - |suffix|..] == suffix
  }

  /** `s` is the last dash-separated word of `word`, or ends in a dash and that word. */
  predicate LastWord(s: string, word: string) {
    s == word || EndsWith(s, "-" + word)
  }

  // ---------------------------------------------------------------- string facts

  lemma CancelRight(a: string, b: string, x: string)
    requires a + x == b + x
    ensures a == b
  {
    assert a == (a + x)[..|a|];
    assert b == (b + x)[..|b|];
  }

  lemma CancelLeft(x: string, a: string, b: string)
    requires x + a == x + b
    ensures a == b
  {
    assert a == (x + a)[|x|..];
    assert b == (x + b)[|x|..];
  }

  /** Two strings with one sum have comparable ends. */
  lemma SuffixOfSum(a: string, x: string, b: string, y: string)
    requires a + x == b + y
    requires |x| >= |y|
    ensures EndsWith(x, y)
  {
    var s := a + x;
    assert x == s[|s| - |x|..];
    assert y == (b + y)[|b|..] == s[|s| - |y|..];
    assert x[|x| - |y|..] == s[|s| - |y|..];
  }

  // ---------------------------------------------------------------- exact collisions

  /** `a` is long enough to lose its namespace and is then named like the joined key of `b`. */
  predicate Straddle(a: Key, b: Key) {
    && a.name == b.ns + "-" + b.name
    && |b.ns| + 1 + |b.name| < KEY_LIMIT <= |a.ns| + 1 + |a.name|
  }

  /** Two deployments of one namespace share a bootstrap key exactly when one name is the
      other joined key and the two lengths lie on both sides of the limit. */
  lemma BootstrapKeyCollision(a: Key, b: Key)
    requires a.ns == b.ns && a != b
    ensures BootstrapKey(a) == BootstrapKey(b) <==> Straddle(a, b) || Straddle(b, a)
    ensures KubeName(a) == KubeName(b) <==> Straddle(a, b) || Straddle(b, a)
  {
    if BootstrapKey(a) == BootstrapKey(b) {
      if |a.ns + "-" + a.name| < KEY_LIMIT && |b.ns + "-" + b.name| < KEY_LIMIT {
        CancelLeft(a.ns + "-", a.name, b.name);
        assert false;
      }
    }
    if KubeName(a) == KubeName(b) {
      CancelRight(BootstrapKey(a), BootstrapKey(b), KUBELET_SUFFIX);
    }
  }

  /** A label value holds at most 63 bytes. With a name of at most 62 the key stays below that, and it
      carries the namespace exactly if the joined key does. */
  lemma KeyFits(k: Key)
    ensures |k.name| <= 62 ==> |BootstrapKey(k)| <= 62
    ensures BootstrapKey(k) == if |k.ns| + |k.name| <= 61 then k.ns + "-" + k.name else k.name
  {
  }

  /** Names built from `name-ns` agree exactly when the two joined strings agree. */
  lemma JoinedNames(a: Key, b: Key)
    ensures OscName(a) == OscName(b) <==> a.name + "-" + a.ns == b.name + "-" + b.ns
    ensures ProvName(a) == ProvName(b) <==> a.name + "-" + a.ns == b.name + "-" + b.ns
    ensures BootName(a) == BootName(b) <==> a.name + "-" + a.ns == b.name + "-" + b.ns
    ensures a.ns == b.ns ==> (a.name + "-" + a.ns == b.name + "-" + b.ns <==> a == b)
  {
    var x, y := a.name + "-" + a.ns, b.name + "-" + b.ns;
    if OscName(a) == OscName(b) { CancelRight(x, y, "-config"); }
    if ProvName(a) == ProvName(b) { CancelRight(x, y, PROVISIONING_SUFFIX); }
    if BootName(a) == BootName(b) { CancelRight(x, y, BOOTSTRAP_SUFFIX); }
    if a.ns == b.ns && x == y {
      assert x == a.name + ("-" + a.ns) && y == b.name + ("-" + b.ns);
      CancelRight(a.name, b.name, "-" + a.ns);
    }
  }

  /** A provisioning secret never carries the name of a bootstrap or kubelet secret. */
  lemma ProvisioningApart(a: Key, b: Key)
    ensures ProvName(a) != BootName(b)
    ensures ProvName(a) != KubeName(b)
  {
    var p := ProvName(a);
    assert p[|p| - 8] == 'g';
    var q, r := BootName(b), KubeName(b);
    assert q[|q| - 8] == 'p' && r[|r| - 8] == 'p';
  }

  /** If `head + "-" + ns` ends in `"-" + word`, the namespace ends in the word. */
  lemma LastWordOfJoin(head: string, ns: string, front: string, word: string)
    requires head + "-" + ns == front + "-" + word
    requires '-' !in word
    ensures LastWord(ns, word)
  {
    assert head + "-" + ns == head + ("-" + ns);
    assert front + "-" + word == front + ("-" + word);
    if |ns| > |word| {
      SuffixOfSum(head + "-", ns, front, "-" + word);
    } else {
      var gap := |word| - |ns|;
      assert gap > 0 ==> ("-" + word)[gap] == word[gap - 1] != '-';
      SuffixOfSum(front, "-" + word, head, "-" + ns);
      assert ("-" + word)[gap..][0] == ("-" + ns)[0] == '-';
      assert ns == ("-" + ns)[1..] && word == ("-" + word)[1..];
    }
  }

  lemma JoinWithLastWord(ns: string, word: string) returns (rest: string)
    requires EndsWith(ns, "-" + word)
    ensures ns == rest + "-" + word
  {
    rest := ns[..|ns| - |word| - 1];
    assert ns == rest + ns[|rest|..];
  }

  /** Bootstrap and kubelet secrets of a namespace can collide exactly when the namespace
      is `kubelet` or ends in `-kubelet`. */
  lemma KubeletNamespace(ns: string)
    ensures (exists x: string, y: string :: BootName(Key(ns, x)) == KubeName(Key(ns, y)))
       <==> LastWord(ns, "kubelet")
  {
    forall x: string, y: string | BootName(Key(ns, x)) == KubeName(Key(ns, y))
      ensures LastWord(ns, "kubelet")
    {
      KubeletCollisionNeedsNamespace(Key(ns, x), Key(ns, y));
    }
    if LastWord(ns, "kubelet") {
      var x, y := KubeletCollision(ns);
      assert BootName(Key(ns, x)) == KubeName(Key(ns, y));
    }
  }

  lemma KubeletItself() returns (x: string, y: string)
    ensures BootName(Key("kubelet", x)) == KubeName(Key("kubelet", y))
  {
    x, y := "kubelet-a", "a";
    assert BootstrapKey(Key("kubelet", y)) == "kubelet-a";
    assert BootName(Key("kubelet", x)) == "kubelet-a" + "-kubelet" + BOOTSTRAP_SUFFIX;
  }

  lemma KubeletCollisionNeedsNamespace(a: Key, b: Key)
    requires BootName(a) == KubeName(b)
    ensures LastWord(a.ns, "kubelet")
  {
    var front := BootstrapKey(b);
    assert KubeName(b) == front + "-kubelet" + BOOTSTRAP_SUFFIX;
    CancelRight(a.name + "-" + a.ns, front + "-kubelet", BOOTSTRAP_SUFFIX);
    assert front + "-kubelet" == front + "-" + "kubelet";
    LastWordOfJoin(a.name, a.ns, front, "kubelet");
  }

  lemma KubeletCollision(ns: string) returns (x: string, y: string)
    requires LastWord(ns, "kubelet")
    ensures BootName(Key(ns, x)) == KubeName(Key(ns, y))
  {
    if ns == "kubelet" {
      x, y := KubeletItself();
    } else {
      var rest := JoinWithLastWord(ns, "kubelet");
      if |ns| + 1 + |rest| < KEY_LIMIT {
        x, y := ns, rest;
        assert BootstrapKey(Key(ns, y)) == ns + "-" + rest;
        assert BootName(Key(ns, x)) == (ns + "-" + rest) + ("-kubelet" + BOOTSTRAP_SUFFIX);
      } else {
        x, y := "a", "a-" + rest;
        assert BootstrapKey(Key(ns, y)) == "a-" + rest;
        assert BootName(Key(ns, x)) == ("a-" + rest) + ("-kubelet" + BOOTSTRAP_SUFFIX);
      }
    }
  }

  /** Namespaces in which the name of an edge script can read like that of an owned secret. */
  predicate EdgyNamespace(ns: string) {
    ns == "config" || LastWord(ns, "provisioning-config") || LastWord(ns, "bootstrap-config")
  }

  /** An edge script shares no name with an owned secret of any deployment, outside such namespaces. */
  lemma EdgeApart(a: Key, b: Key, slot: Slot)
    requires slot != OscSlot && !EdgyNamespace(a.ns)
    ensures EdgeName(a) != SecretName(b, slot)
  {
    if EdgeName(a) == SecretName(b, slot) {
      EdgeEnds(a, b, slot);
    }
  }

  lemma EdgeEnds(a: Key, b: Key, slot: Slot)
    requires slot != OscSlot && EdgeName(a) == SecretName(b, slot)
    ensures EdgyNamespace(a.ns)
  {
    var head := "edge-provider-script-" + a.name;
    match slot
    case ProvSlot => EdgeTail(head, a.ns, b.name + "-" + b.ns, "provisioning", "provisioning-config",
        PROVISIONING_SUFFIX);
    case BootSlot => EdgeTail(head, a.ns, b.name + "-" + b.ns, "bootstrap", "bootstrap-config", BOOTSTRAP_SUFFIX);
    case KubeSlot =>
      assert KubeName(b) == BootstrapKey(b) + "-kubelet" + BOOTSTRAP_SUFFIX;
      EdgeTail(head, a.ns, BootstrapKey(b) + "-kubelet", "bootstrap", "bootstrap-config", BOOTSTRAP_SUFFIX);
  }

  /** A join that ends in `word` and `config` has a namespace that is `config` or ends in both. */
  lemma EdgeTail(head: string, ns: string, front: string, word: string, tail: string, suffix: string)
    requires tail == word + "-config" && suffix == "-" + tail && '-' !in word
    requires head + "-" + ns == front + suffix
    ensures ns == "config" || LastWord(ns, tail)
  {
    assert front + suffix == (front + "-" + word) + "-" + "config";
    LastWordOfJoin(head, ns, front + "-" + word, "config");
    if ns != "config" {
      var rest := JoinWithLastWord(ns, "config");
      assert head + "-" + ns == (head + "-" + rest) + "-config";
      CancelRight(head + "-" + rest, front + "-" + word, "-config");
      LastWordOfJoin(head, rest, front, word);
      if rest != word {
        var r := JoinWithLastWord(rest, word);
        assert ns == r + ("-" + tail);
      }
    }
  }

  lemma EdgeCollision(ns: string) returns (x: string, b: Key, slot: Slot)
    requires EdgyNamespace(ns)
    ensures slot != OscSlot && EdgeName(Key(ns, x)) == SecretName(b, slot)
  {
    if LastWord(ns, "provisioning-config") {
      slot := ProvSlot;
      x, b := EdgeTwin(ns, "provisioning-config", PROVISIONING_SUFFIX);
    } else if LastWord(ns, "bootstrap-config") {
      slot := BootSlot;
      x, b := EdgeTwin(ns, "bootstrap-config", BOOTSTRAP_SUFFIX);
    } else {
      slot := ProvSlot;
      x, b := EdgeConfig("-provisioning", PROVISIONING_SUFFIX);
    }
  }

  lemma EdgeConfig(word: string, suffix: string) returns (x: string, b: Key)
    requires suffix == word + "-config"
    ensures EdgeName(Key("config", x)) == b.name + "-" + b.ns + suffix
  {
    x, b := "a" + word, Key("a", "edge-provider-script");
    Joined("edge-provider-script-", "a", word, suffix);
    assert "edge-provider-script" + "-" == "edge-provider-script-";
  }

  lemma Joined(head: string, x: string, word: string, suffix: string)
    requires suffix == word + "-config"
    ensures head + (x + word) + "-" + "config" == head + x + suffix
  {
    assert "-" + "config" == "-config";
    assert head + (x + word) + "-" + "config" == head + (x + word) + ("-" + "config");
  }

  lemma EdgeTwin(ns: string, word: string, suffix: string) returns (x: string, b: Key)
    requires LastWord(ns, word) && suffix == "-" + word
    ensures EdgeName(Key(ns, x)) == b.name + "-" + b.ns + suffix
  {
    x := "a";
    if ns == word {
      b := Key(x, "edge-provider-script");
    } else {
      var rest := JoinWithLastWord(ns, word);
      b := Key(x + "-" + rest, "edge-provider-script");
    }
  }

  /** The names of edge scripts of a namespace can collide with those of owned secrets exactly in such
      a namespace. */
  lemma EdgeNamespace(ns: string)
    ensures (exists x: string, b: Key, slot :: slot != OscSlot && EdgeName(Key(ns, x)) == SecretName(b, slot))
       <==> EdgyNamespace(ns)
  {
    if x: string, b: Key, slot :| slot != OscSlot && EdgeName(Key(ns, x)) == SecretName(b, slot) && !EdgyNamespace(ns) {
      EdgeApart(Key(ns, x), b, slot);
    }
    if EdgyNamespace(ns) {
      var x, b, slot := EdgeCollision(ns);
    }
  }

  // ---------------------------------------------------------------- what the protocol needs

  /** Nothing else of `a` has the name of the OSC or of a cloud-config secret of `b`. */
  ghost predicate CloudFree(a: Key, b: Key) {
    && (a != b ==> OscName(a) != OscName(b) && ProvName(a) != ProvName(b) && BootName(a) != BootName(b))
    && ProvName(a) != BootName(b) && BootName(a) != ProvName(b)
    && KubeName(a) != ProvName(b) && KubeName(a) != BootName(b)
    && EdgeName(a) != ProvName(b) && EdgeName(a) != BootName(b)
  }

  /** Nothing of `a` but its kubelet secret has the name of the kubelet secret of `b`. */
  ghost predicate KubeFree(a: Key, b: Key) {
    ProvName(a) != KubeName(b) && BootName(a) != KubeName(b) && EdgeName(a) != KubeName(b)
  }

  /** The names of one deployment are different among themselves. */
  ghost predicate SelfApart(k: Key) {
    CloudFree(k, k) && KubeFree(k, k)
  }

  /** No deployment of `keys` has another object under the name of the OSC or a cloud-config secret of `k`.
      The others may collide among themselves. */
  ghost predicate OwnCloud(keys: set<Key>, k: Key) {
    forall j :: j in keys ==> CloudFree(j, k)
  }

  /** No other deployment of `keys` has the bootstrap key of `k`. */
  ghost predicate OwnKey(keys: set<Key>, k: Key) {
    forall j :: j in keys && j != k ==> BootstrapKey(j) != BootstrapKey(k)
  }

  /** Nor the name of its kubelet secret. */
  ghost predicate OwnKube(keys: set<Key>, k: Key) {
    OwnKey(keys, k) && forall j :: j in keys ==> KubeFree(j, k)
  }

  ghost predicate OwnSlot(keys: set<Key>, k: Key, slot: Slot) {
    if slot == KubeSlot then OwnKube(keys, k) else OwnCloud(keys, k)
  }

  /** The name of a secret that is `k`'s own tells whose it is, and no edge script has it. */
  lemma NameTellsOwner(keys: set<Key>, h: Key, other: Slot, k: Key, slot: Slot)
    requires OwnSlot(keys, k, slot) && h in keys && other != OscSlot && slot != OscSlot
    ensures SecretName(h, other) == SecretName(k, slot) ==> h == k && other == slot
    ensures EdgeName(h) != SecretName(k, slot)
  {
    if slot == KubeSlot {
      assert KubeFree(h, k);
      if KubeName(h) == KubeName(k) { CancelRight(BootstrapKey(h), BootstrapKey(k), KUBELET_SUFFIX); }
    } else {
      assert CloudFree(h, k);
    }
  }

  /** A namespace whose names can only collide on the bootstrap key. */
  predicate PlainNamespace(ns: string) {
    !LastWord(ns, "kubelet") && !EdgyNamespace(ns)
  }

  /** In such a namespace cloud names are a deployment's own, and its kubelet name and bootstrap key are
      exactly if it straddles the limit with no other. */
  lemma OneNamespaceOwn(keys: set<Key>, ns: string, k: Key)
    requires PlainNamespace(ns) && k in keys
    requires forall j :: j in keys ==> j.ns == ns
    ensures OwnCloud(keys, k)
    ensures OwnKube(keys, k) <==> forall j :: j in keys && j != k ==> !Straddle(j, k) && !Straddle(k, j)
  {
    forall j | j in keys
      ensures CloudFree(j, k) && KubeFree(j, k)
      ensures j != k ==> (BootstrapKey(j) != BootstrapKey(k) <==> !Straddle(j, k) && !Straddle(k, j))
    {
      PlainApart(j, k);
      PlainApart(k, j);
      if j != k { BootstrapKeyCollision(j, k); }
    }
  }

  lemma PlainApart(a: Key, b: Key)
    requires a.ns == b.ns && PlainNamespace(a.ns)
    ensures CloudFree(a, b) && KubeFree(a, b)
  {
    JoinedNames(a, b);
    ProvisioningApart(a, b);
    ProvisioningApart(b, a);
    if BootName(a) == KubeName(b) { KubeletCollisionNeedsNamespace(a, b); }
    if BootName(b) == KubeName(a) { KubeletCollisionNeedsNamespace(b, a); }
    EdgeApart(a, b, ProvSlot);
    EdgeApart(a, b, BootSlot);
    EdgeApart(a, b, KubeSlot);
  }
}
