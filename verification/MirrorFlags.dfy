/** The repeatable mirror flag and the comma-separated mirror options, merged into one map. */
module MirrorFlags {
  import opened Sorting
  import opened Query
  import MirrorURL

  type Mirrors = map<string, seq<string>>

  function Lookup(m: Mirrors, name: string): seq<string> {
    if name in m then m[name] else []
  }

  function Append(m: Mirrors, p: Pair): Mirrors {
    m[p.key := Lookup(m, p.key) + [p.value]]
  }

  // ---------------------------------------------------------------- the flag

  /** A flag value needs an equals sign; the text before the first one names the registry. */
  predicate Accepted(val: string) {
    Cut(val, '=').2
  }

  function PairOfFlag(val: string): Pair {
    Pair(Cut(val, '=').0, Cut(val, '=').1)
  }

  function AfterSet(m: Mirrors, val: string): Mirrors {
    if Accepted(val) then Append(m, PairOfFlag(val)) else m
  }

  function Replay(m: Mirrors, vals: seq<string>): Mirrors {
    if vals == [] then m else AfterSet(Replay(m, vals[..|vals| - 1]), vals[|vals| - 1])
  }

  function Texts(pairs: seq<Pair>): seq<string> {
    if pairs == [] then [] else [pairs[0].key + "=" + pairs[0].value] + Texts(pairs[1..])
  }

  /** What String lists: registries in order, each with its mirrors in order. */
  ghost function Entries(m: Mirrors): seq<string> {
    Texts(PairsOf(m, Ordered(m.Keys)))
  }

  class RegistryMirrorsFlags {
    var m: Mirrors

    constructor ()
      ensures m == map[]
    {
      m := map[];
    }

    method Set(val: string) returns (err: bool)
      modifies this
      ensures err == !Accepted(val)
      ensures m == AfterSet(old(m), val)
    {
      var (key, value, found) := Cut(val, '=');
      if !found {
        return true;
      }
      var slice := if key in m then m[key] else [];
      m := m[key := slice + [value]];
      return false;
    }

    /** The entries String prints between brackets. */
    method List() returns (result: seq<string>)
      ensures result == Entries(m)
    {
      var keys := CollectKeys(m.Keys);
      var names := SortUnique(keys);
      SortingForgetsOrder(keys, m.Keys);
      result := [];
      for i := 0 to |names|
        invariant result == Texts(PairsOf(m, names[..i]))
      {
        var entries := ListOne(names[i], m[names[i]]);
        OneMoreName(m, names[..i], names[i]);
        assert names[..i + 1] == names[..i] + [names[i]];
        result := result + entries;
      }
      assert names[..|names|] == names;
    }

    method ListOne(name: string, mirrors: seq<string>) returns (entries: seq<string>)
      ensures entries == Texts(PairsOfKey(name, mirrors))
    {
      entries := [];
      for i := 0 to |mirrors|
        invariant entries == Texts(PairsOfKey(name, mirrors[..i]))
      {
        OneMoreMirror(name, mirrors[..i], mirrors[i]);
        assert mirrors[..i + 1] == mirrors[..i] + [mirrors[i]];
        entries := entries + [name + "=" + mirrors[i]];
      }
      assert mirrors[..|mirrors|] == mirrors;
    }
  }

  lemma {:induction false} PairsOfLast(m: Mirrors, names: seq<string>, name: string)
    requires forall k :: k in names + [name] ==> k in m
    ensures PairsOf(m, names + [name]) == PairsOf(m, names) + PairsOfKey(name, m[name])
  {
    var all := names + [name];
    assert name in all && forall k :: k in names ==> k in all;
    if names == [] {
      assert all[1..] == [];
      assert PairsOfKey(name, m[name]) + [] == PairsOfKey(name, m[name]);
    } else {
      assert all[1..] == names[1..] + [name];
      PairsOfLast(m, names[1..], name);
    }
  }

  lemma OneMoreName(m: Mirrors, names: seq<string>, name: string)
    requires forall k :: k in names + [name] ==> k in m
    requires name in m && forall k :: k in names ==> k in m
    ensures Texts(PairsOf(m, names + [name])) == Texts(PairsOf(m, names)) + Texts(PairsOfKey(name, m[name]))
  {
    PairsOfLast(m, names, name);
    TextsOfAppend(PairsOf(m, names), PairsOfKey(name, m[name]));
  }

  lemma {:induction false} PairsOfKeyLast(name: string, mirrors: seq<string>, mirror: string)
    ensures PairsOfKey(name, mirrors + [mirror]) == PairsOfKey(name, mirrors) + [Pair(name, mirror)]
  {
    var all := mirrors + [mirror];
    if mirrors == [] {
      assert all[1..] == [];
    } else {
      assert all[1..] == mirrors[1..] + [mirror];
      PairsOfKeyLast(name, mirrors[1..], mirror);
    }
  }

  lemma OneMoreMirror(name: string, mirrors: seq<string>, mirror: string)
    ensures Texts(PairsOfKey(name, mirrors + [mirror])) == Texts(PairsOfKey(name, mirrors)) + [name + "=" + mirror]
  {
    PairsOfKeyLast(name, mirrors, mirror);
    TextsOfAppend(PairsOfKey(name, mirrors), [Pair(name, mirror)]);
    assert [Pair(name, mirror)][1..] == [];
  }

  lemma {:induction false} TextsOfAppend(a: seq<Pair>, b: seq<Pair>)
    ensures Texts(a + b) == Texts(a) + Texts(b)
  {
    if a == [] {
      assert a + b == b;
    } else {
      assert (a + b)[1..] == a[1..] + b;
      TextsOfAppend(a[1..], b);
    }
  }

  /** Maps that some sequence of flags can build. */
  ghost predicate Reachable(m: Mirrors) {
    exists vals :: Replay(map[], vals) == m
  }

  /** Every registry has a mirror and no name holds an equals sign. */
  predicate Regular(m: Mirrors) {
    forall k :: k in m ==> '=' !in k && m[k] != []
  }

  lemma {:induction false} ReplayIsRegular(vals: seq<string>)
    ensures Regular(Replay(map[], vals))
  {
    if vals != [] {
      ReplayIsRegular(vals[..|vals| - 1]);
      CutParts(vals[|vals| - 1], '=');
    }
  }

  lemma {:induction false} TextsLast(pairs: seq<Pair>)
    requires pairs != []
    ensures var n := |pairs| - 1;
      |Texts(pairs)| == |pairs| && Texts(pairs)[..n] == Texts(pairs[..n])
      && Texts(pairs)[n] == pairs[n].key + "=" + pairs[n].value
  {
    var n := |pairs| - 1;
    assert pairs == pairs[..n] + [pairs[n]];
    TextsOfAppend(pairs[..n], [pairs[n]]);
    assert [pairs[n]][1..] == [];
    assert Texts([pairs[n]]) == [pairs[n].key + "=" + pairs[n].value];
    TextsLength(pairs[..n]);
  }

  lemma {:induction false} TextsLength(pairs: seq<Pair>)
    ensures |Texts(pairs)| == |pairs|
  {
    if pairs != [] { TextsLength(pairs[1..]); }
  }

  /** Flags set one after the other collect their values per registry. */
  lemma {:induction false} ReplayCollects(pairs: seq<Pair>)
    requires forall p :: p in pairs ==> '=' !in p.key
    ensures Replay(map[], Texts(pairs)) == Collect(pairs)
  {
    if pairs == [] {
      assert Collect([]) == map[];
    } else {
      var n := |pairs| - 1;
      var last := pairs[n];
      TextsLast(pairs);
      ReplayCollects(pairs[..n]);
      assert last.key + "=" + last.value == last.key + ['='] + last.value;
      CutFirst(last.key, '=', last.value);
      CollectLast(pairs);
    }
  }

  lemma {:induction false} CollectLast(pairs: seq<Pair>)
    requires pairs != []
    ensures var n := |pairs| - 1; Collect(pairs) == Append(Collect(pairs[..n]), pairs[n])
  {
    var front, last := pairs[..|pairs| - 1], pairs[|pairs| - 1];
    assert pairs == front + [last];
    forall k {
      CollectOneMore(front, last, k);
    }
    SameLookups(Collect(pairs), Append(Collect(front), last));
  }

  lemma {:induction false} CollectOneMore(front: seq<Pair>, last: Pair, k: string)
    ensures var whole, more := Collect(front + [last]), Append(Collect(front), last);
      Lookup(whole, k) == Lookup(more, k) && (k in whole <==> k in more)
  {
    LookupCollected(front + [last], k);
    LookupCollected(front, k);
    ValuesOfAppend(front, [last], k);
    assert ValuesOf([last], k) == if last.key == k then [last.value] else [];
  }

  lemma SameLookups(a: Mirrors, b: Mirrors)
    requires forall k :: Lookup(a, k) == Lookup(b, k) && (k in a <==> k in b)
    ensures a == b
  {
    forall k | k in a
      ensures a[k] == b[k]
    {
      assert Lookup(a, k) == Lookup(b, k);
    }
  }

  lemma LookupCollected(pairs: seq<Pair>, k: string)
    ensures Lookup(Collect(pairs), k) == ValuesOf(pairs, k)
    ensures k in Collect(pairs) <==> ValuesOf(pairs, k) != []
  {
    ValuesPresent(pairs, k);
  }

  /** Round trip: the reachable maps are exactly the regular ones, and setting the listed entries one
      by one rebuilds each of them. */
  lemma ListedFlagsRebuild(m: Mirrors)
    ensures Reachable(m) <==> Regular(m)
    ensures Reachable(m) ==> Replay(map[], Entries(m)) == m
  {
    if vals :| Replay(map[], vals) == m { ReplayIsRegular(vals); }
    if Regular(m) { RegularRebuilds(m); }
  }

  lemma {:induction false} RegularRebuilds(m: Mirrors)
    requires Regular(m)
    ensures Replay(map[], Entries(m)) == m
  {
    var keys := Ordered(m.Keys);
    if keys != [] { PairsOfValues(m, keys, keys[0]); }
    ReplayCollects(PairsOf(m, keys));
    CollectPairs(m);
    assert NonEmpty(m) == m;
  }

  /** A flag is split at its first equals sign; without one it is refused and changes nothing. */
  lemma {:induction false} FlagSays(m: Mirrors, name: string, mirror: string)
    requires '=' !in name
    ensures Accepted(name + ['='] + mirror) && !Accepted(name)
    ensures AfterSet(m, name + ['='] + mirror) == m[name := (if name in m then m[name] else []) + [mirror]]
    ensures AfterSet(m, name) == m
  {
    CutFirst(name, '=', mirror);
    CutPlain(name, '=');
  }

  lemma {:induction false} EntryIs(pairs: seq<Pair>, i: nat)
    requires i < |pairs|
    ensures |Texts(pairs)| == |pairs| && Texts(pairs)[i] == pairs[i].key + "=" + pairs[i].value
  {
    if i > 0 { EntryIs(pairs[1..], i - 1); }
    TextsLength(pairs);
  }

  // ---------------------------------------------------------------- the comma-separated options

  predicate Bytes2(s: string, i: nat, b0: int, b1: int)
    requires i + 2 <= |s|
  {
    s[i] as int == b0 && s[i + 1] as int == b1
  }

  /** White space of two bytes in UTF-8: U+0085 and U+00A0. */
  predicate WideSpace(s: string, i: nat)
    requires i + 2 <= |s|
  {
    Bytes2(s, i, 0xC2, 0x85) || Bytes2(s, i, 0xC2, 0xA0)
  }

  /** White space of three bytes: U+1680, U+2000 to U+200A, U+2028, U+2029, U+202F, U+205F and U+3000. */
  predicate WiderSpace(s: string, i: nat)
    requires i + 3 <= |s|
  {
    var last := s[i + 2] as int;
    || (Bytes2(s, i, 0xE1, 0x9A) && last == 0x80)
    || (Bytes2(s, i, 0xE2, 0x80) && (0x80 <= last <= 0x8A || last in {0xA8, 0xA9, 0xAF}))
    || (Bytes2(s, i, 0xE2, 0x81) && last == 0x9F)
    || (Bytes2(s, i, 0xE3, 0x80) && last == 0x80)
  }

  predicate PlainSpace(c: char) {
    9 <= c as int <= 13 || c == ' '
  }

  /** Length of the white space that the text starts with, 0 if it starts with none. */
  function LeadingSpace(s: string): (n: nat)
    ensures n <= |s|
  {
    if |s| >= 1 && PlainSpace(s[0]) then 1
    else if |s| >= 2 && WideSpace(s, 0) then 2
    else if |s| >= 3 && WiderSpace(s, 0) then 3
    else 0
  }

  function TrailingSpace(s: string): (n: nat)
    ensures n <= |s|
  {
    if |s| >= 1 && PlainSpace(s[|s| - 1]) then 1
    else if |s| >= 2 && WideSpace(s, |s| - 2) then 2
    else if |s| >= 3 && WiderSpace(s, |s| - 3) then 3
    else 0
  }

  function TrimLeft(s: string): string {
    var n := LeadingSpace(s);
    if n == 0 then s else TrimLeft(s[n..])
  }

  function TrimRight(s: string): string {
    var n := TrailingSpace(s);
    if n == 0 then s else TrimRight(s[..|s| - n])
  }

  /** `strings.TrimSpace`: white space is recognised as whole UTF-8 characters. */
  function TrimSpace(s: string): string {
    TrimRight(TrimLeft(s))
  }

  /** One white space character. */
  predicate SpaceText(s: string) {
    || (|s| == 1 && PlainSpace(s[0]))
    || (|s| == 2 && WideSpace(s, 0))
    || (|s| == 3 && WiderSpace(s, 0))
  }

  /** Nothing but white space. */
  ghost predicate White(s: string)
    decreases |s|
  {
    s == "" || exists n :: 1 <= n <= 3 && n <= |s| && SpaceText(s[..n]) && White(s[n..])
  }

  lemma {:induction false} WhiteFirst(a: string, b: string)
    requires SpaceText(a) && White(b)
    ensures White(a + b)
  {
    assert (a + b)[..|a|] == a && (a + b)[|a|..] == b;
  }

  lemma {:induction false} WhiteLast(a: string, b: string)
    requires White(a) && SpaceText(b)
    ensures White(a + b)
    decreases |a|
  {
    if a == "" {
      assert a + b == b && b + "" == b;
      WhiteFirst(b, "");
    } else {
      var n :| 1 <= n <= 3 && n <= |a| && SpaceText(a[..n]) && White(a[n..]);
      var first, rest := a[..n], a[n..];
      WhiteLast(rest, b);
      WhiteFirst(first, rest + b);
      Regroup(first, rest, b);
      assert a == first + rest;
    }
  }

  lemma Regroup(a: string, b: string, c: string)
    ensures a + (b + c) == a + b + c
  {
  }

  /** What `LeadingSpace` finds is one white space character. */
  lemma {:induction false} LeadingIsSpace(s: string)
    requires LeadingSpace(s) != 0
    ensures SpaceText(s[..LeadingSpace(s)])
  {
    var head := s[..LeadingSpace(s)];
    assert forall i :: 0 <= i < |head| ==> head[i] == s[i];
  }

  lemma {:induction false} TrailingIsSpace(s: string)
    requires TrailingSpace(s) != 0
    ensures SpaceText(s[|s| - TrailingSpace(s)..])
  {
    var n := TrailingSpace(s);
    var tail := s[|s| - n..];
    assert forall i :: 0 <= i < |tail| ==> tail[i] == s[|s| - n + i];
  }

  /** `r` is what is left of `s` after cutting white space off its front. */
  ghost predicate FrontCut(s: string, r: string) {
    exists a :: s == a + r && White(a)
  }

  ghost predicate BackCut(s: string, r: string) {
    exists b :: s == r + b && White(b)
  }

  lemma {:induction false} CutFront(head: string, rest: string, r: string)
    requires SpaceText(head) && FrontCut(rest, r)
    ensures FrontCut(head + rest, r)
  {
    var a :| rest == a + r && White(a);
    WhiteFirst(head, a);
    Regroup(head, a, r);
  }

  lemma {:induction false} CutBack(rest: string, last: string, r: string)
    requires SpaceText(last) && BackCut(rest, r)
    ensures BackCut(rest + last, r)
  {
    var b :| rest == r + b && White(b);
    WhiteLast(b, last);
    Regroup(r, b, last);
  }

  lemma {:induction false} TrimLeftStep(s: string) returns (head: string, rest: string)
    requires LeadingSpace(s) != 0
    ensures s == head + rest && SpaceText(head) && TrimLeft(s) == TrimLeft(rest) && |rest| < |s|
  {
    var n := LeadingSpace(s);
    head, rest := s[..n], s[n..];
    LeadingIsSpace(s);
  }

  lemma {:induction false} TrimRightStep(s: string) returns (rest: string, last: string)
    requires TrailingSpace(s) != 0
    ensures s == rest + last && SpaceText(last) && TrimRight(s) == TrimRight(rest) && |rest| < |s|
  {
    var n := |s| - TrailingSpace(s);
    rest, last := s[..n], s[n..];
    TrailingIsSpace(s);
  }

  lemma {:induction false} TrimLeftTrims(s: string)
    ensures LeadingSpace(TrimLeft(s)) == 0 && FrontCut(s, TrimLeft(s))
    decreases |s|
  {
    if LeadingSpace(s) != 0 {
      var head, rest := TrimLeftStep(s);
      TrimLeftTrims(rest);
      CutFront(head, rest, TrimLeft(rest));
    } else {
      assert s == "" + s;
    }
  }

  lemma {:induction false} TrimRightTrims(s: string)
    ensures TrailingSpace(TrimRight(s)) == 0 && BackCut(s, TrimRight(s))
    decreases |s|
  {
    if TrailingSpace(s) != 0 {
      var rest, last := TrimRightStep(s);
      TrimRightTrims(rest);
      CutBack(rest, last, TrimRight(rest));
    } else {
      assert s == s + "";
    }
  }

  /** Trimming cuts white space off both ends and leaves none there. */
  lemma {:induction false} TrimSpaceTrims(s: string)
    ensures var r := TrimSpace(s);
      && LeadingSpace(r) == 0 && TrailingSpace(r) == 0
      && exists a, b :: s == a + r + b && White(a) && White(b)
  {
    var t, r := TrimLeft(s), TrimSpace(s);
    TrimLeftTrims(s);
    TrimRightTrims(t);
    var a :| s == a + t && White(a);
    var b :| t == r + b && White(b);
    PrefixLeads(r, b);
    Regroup(a, r, b);
  }

  /** A prefix starts with white space only if the text does. */
  lemma PrefixLeads(r: string, b: string)
    requires LeadingSpace(r + b) == 0
    ensures LeadingSpace(r) == 0
  {
    assert forall i :: 0 <= i < |r| ==> (r + b)[i] == r[i];
  }

  /** The non-blank items of a comma-separated option. */
  function Items(option: string): seq<string> {
    TrimmedItems(Split(option, ','))
  }

  function TrimmedItems(parts: seq<string>): seq<string> {
    if parts == [] then []
    else (if TrimSpace(parts[0]) == "" then [] else [TrimSpace(parts[0])]) + TrimmedItems(parts[1..])
  }

  /** The items are what is between commas, trimmed, without the blank ones, in order. */
  lemma {:induction false} ItemsAre(part: string, option: string)
    requires ',' !in part
    ensures var rest := Items(option);
      Items(part + [','] + option) == if TrimSpace(part) == "" then rest else [TrimSpace(part)] + rest
    ensures Items(part) == if TrimSpace(part) == "" then [] else [TrimSpace(part)]
  {
    SplitFirst(part, ',', option);
    SplitPlain(part, ',');
    FirstItem(part, Split(option, ','));
    FirstItem(part, []);
    assert [part] + [] == [part];
  }

  lemma {:induction false} FirstItem(part: string, parts: seq<string>)
    ensures TrimmedItems([part] + parts)
      == if TrimSpace(part) == "" then TrimmedItems(parts) else [TrimSpace(part)] + TrimmedItems(parts)
  {
    assert ([part] + parts)[1..] == parts;
  }

  predicate NameChar(c: char) {
    'a' <= c <= 'z' || 'A' <= c <= 'Z' || '0' <= c <= '9' || c == '.' || c == '-'
  }

  predicate HasHTTP(s: string) {
    |s| >= 4 && s[..4] == "http"
  }

  function WithScheme(s: string): string {
    if HasHTTP(s) then s else "https://" + s
  }

  /** `name=mirror` names a registry; anything else is a mirror of docker.io. The mirror ends at a
      line break and gets a scheme if it has none. */
  function ItemPair(hub: string, item: string): Pair {
    var (name, rest, found) := Cut(item, '=');
    if found && name != "" && forall c :: c in name ==> NameChar(c) then Pair(name, WithScheme(Cut(rest, '\n').0))
    else Pair(hub, WithScheme(item))
  }

  lemma SchemeIs(s: string)
    ensures |s| >= 4 && s[..4] == "http" ==> WithScheme(s) == s
    ensures |s| < 4 || s[..4] != "http" ==> WithScheme(s) == "https://" + s
  {
  }

  /** An item whose text before the first equals sign is made of letters, digits, dots and dashes names
      that registry; its mirror is the rest of the line. */
  lemma {:induction false} NamedItem(hub: string, name: string, mirror: string)
    requires name != ""
    requires forall c :: c in name ==>
      'a' <= c <= 'z' || 'A' <= c <= 'Z' || '0' <= c <= '9' || c == '.' || c == '-'
    requires '\n' !in mirror
    ensures ItemPair(hub, name + ['='] + mirror) == Pair(name, WithScheme(mirror))
  {
    CutFirst(name, '=', mirror);
    CutPlain(mirror, '\n');
  }

  /** Any other item is a mirror of the default registry, as a whole. */
  lemma {:induction false} BareItem(hub: string, item: string)
    requires '=' !in item
    ensures ItemPair(hub, item) == Pair(hub, WithScheme(item))
  {
    CutPlain(item, '=');
  }

  /** So is one whose name part is empty or holds another character. */
  lemma {:induction false} OddItem(hub: string, name: string, mirror: string)
    requires '=' !in name
    requires name == "" || exists c ::
      c in name && !('a' <= c <= 'z' || 'A' <= c <= 'Z' || '0' <= c <= '9' || c == '.' || c == '-')
    ensures ItemPair(hub, name + ['='] + mirror) == Pair(hub, WithScheme(name + ['='] + mirror))
  {
    CutFirst(name, '=', mirror);
  }

  function ItemPairs(hub: string, items: seq<string>): (pairs: seq<Pair>)
    ensures |pairs| == |items| && forall i :: 0 <= i < |items| ==> pairs[i] == ItemPair(hub, items[i])
  {
    if items == [] then [] else [ItemPair(hub, items[0])] + ItemPairs(hub, items[1..])
  }

  function AppendAll(m: Mirrors, pairs: seq<Pair>): Mirrors
    decreases |pairs|
  {
    if pairs == [] then m else AppendAll(Append(m, pairs[0]), pairs[1..])
  }

  /** Items before the first whose URL does not parse. */
  function Parsed(pairs: seq<Pair>, parses: string -> bool): seq<Pair> {
    if pairs == [] || !parses(pairs[0].value) then [] else [pairs[0]] + Parsed(pairs[1..], parses)
  }

  datatype Opts = Opts(insecure: string, mirrors: string, credentialsSecret: string)

  /** An optional reference has exactly one slash. */
  predicate SecretRefOk(ref: string) {
    ref == "" || |Split(ref, '/')| == 2
  }

  /** A credentials reference is empty, or two texts without slashes joined by one. */
  lemma {:induction false} SecretRefIs(a: string, b: string)
    requires '/' !in a
    ensures a != "" ==> !SecretRefOk(a)
    ensures SecretRefOk("")
    ensures SecretRefOk(a + ['/'] + b) <==> '/' !in b
  {
    SplitPlain(a, '/');
    SplitFirst(a, '/', b);
    if '/' in b {
      CutParts(b, '/');
      SplitFirst(Cut(b, '/').0, '/', Cut(b, '/').1);
    } else {
      SplitPlain(b, '/');
    }
  }

  /** Merges the options into the flags. The flags are written in place: the configuration shares
      their map, and what was appended before an error stays. */
  method BuildConfig(opts: Opts, flags: RegistryMirrorsFlags?, parses: string -> bool)
    returns (insecure: seq<string>, mirrors: RegistryMirrorsFlags, err: bool)
    modifies flags
    ensures insecure == Items(opts.insecure)
    ensures if flags == null then fresh(mirrors) else mirrors == flags
    ensures var m := if flags == null then map[] else old(flags.m);
      var pairs := ItemPairs(MirrorURL.DOCKER, Items(opts.mirrors));
      && mirrors.m == AppendAll(m, Parsed(pairs, parses))
      && (err <==> Parsed(pairs, parses) != pairs || !SecretRefOk(opts.credentialsSecret))
  {
    insecure := NonBlank(opts.insecure);
    if flags == null {
      mirrors := new RegistryMirrorsFlags();
    } else {
      mirrors := flags;
    }
    var items := NonBlank(opts.mirrors);
    err := AddMirrors(mirrors, ItemPairs(MirrorURL.DOCKER, items), parses);
    if !err {
      err := !SecretRefOk(opts.credentialsSecret);
    }
  }

  method NonBlank(option: string) returns (items: seq<string>)
    ensures items == Items(option)
  {
    var parts := Split(option, ',');
    items := [];
    for i := 0 to |parts|
      invariant items + TrimmedItems(parts[i..]) == TrimmedItems(parts)
    {
      assert parts[i..][1..] == parts[i + 1..];
      var trimmed := TrimSpace(parts[i]);
      if trimmed != "" {
        var before := items;
        items := items + [trimmed];
        assert before + ([trimmed] + TrimmedItems(parts[i + 1..])) == items + TrimmedItems(parts[i + 1..]);
      } else {
        assert [] + TrimmedItems(parts[i + 1..]) == TrimmedItems(parts[i + 1..]);
      }
    }
    assert parts[|parts|..] == [];
  }

  /** Appends the items one by one, up to the first whose URL does not parse. */
  method AddMirrors(mirrors: RegistryMirrorsFlags, pairs: seq<Pair>, parses: string -> bool) returns (err: bool)
    modifies mirrors
    ensures mirrors.m == AppendAll(old(mirrors.m), Parsed(pairs, parses))
    ensures err <==> Parsed(pairs, parses) != pairs
  {
    for i := 0 to |pairs|
      invariant mirrors.m == AppendAll(old(mirrors.m), pairs[..i])
      invariant forall j :: 0 <= j < i ==> parses(pairs[j].value)
    {
      var p := pairs[i];
      if !parses(p.value) {
        StopsAt(pairs, i, parses);
        return true;
      }
      NextPair(old(mirrors.m), pairs, i);
      mirrors.m := Append(mirrors.m, p);
    }
    assert pairs[..|pairs|] == pairs;
    NeverStops(pairs, parses);
    return false;
  }

  lemma {:induction false} NeverStops(pairs: seq<Pair>, parses: string -> bool)
    requires forall j :: 0 <= j < |pairs| ==> parses(pairs[j].value)
    ensures Parsed(pairs, parses) == pairs
  {
    ParsedStops(pairs, [], parses);
    assert pairs + [] == pairs;
  }

  lemma {:induction false} NextPair(m: Mirrors, pairs: seq<Pair>, i: nat)
    requires i < |pairs|
    ensures AppendAll(m, pairs[..i + 1]) == Append(AppendAll(m, pairs[..i]), pairs[i])
  {
    assert pairs[..i + 1] == pairs[..i] + [pairs[i]];
    AppendAllLast(m, pairs[..i], pairs[i]);
  }

  lemma {:induction false} StopsAt(pairs: seq<Pair>, i: nat, parses: string -> bool)
    requires i < |pairs| && !parses(pairs[i].value) && forall j :: 0 <= j < i ==> parses(pairs[j].value)
    ensures Parsed(pairs, parses) == pairs[..i] != pairs
  {
    assert pairs == pairs[..i] + pairs[i..];
    ParsedStops(pairs[..i], pairs[i..], parses);
  }

  lemma {:induction false} ParsedStops(done: seq<Pair>, rest: seq<Pair>, parses: string -> bool)
    requires forall p :: p in done ==> parses(p.value)
    requires rest != [] ==> !parses(rest[0].value)
    ensures Parsed(done + rest, parses) == done
  {
    if done == [] {
      assert done + rest == rest;
    } else {
      assert (done + rest)[1..] == done[1..] + rest;
      ParsedStops(done[1..], rest, parses);
      assert done == [done[0]] + done[1..];
    }
  }

  lemma {:induction false} AppendAllLast(m: Mirrors, pairs: seq<Pair>, p: Pair)
    ensures AppendAll(m, pairs + [p]) == Append(AppendAll(m, pairs), p)
    decreases |pairs|
  {
    if pairs == [] {
      assert [p][1..] == [] && pairs + [p] == [p];
    } else {
      assert (pairs + [p])[1..] == pairs[1..] + [p];
      AppendAllLast(Append(m, pairs[0]), pairs[1..], p);
    }
  }

  // ---------------------------------------------------------------- conservation

  /** For every registry the merged list is the flags' mirrors followed by its comma-list mirrors in
      order; nothing is lost or added, and no other registry appears. */
  lemma {:induction false} MirrorsConserved(m: Mirrors, pairs: seq<Pair>, name: string)
    ensures Lookup(AppendAll(m, pairs), name) == Lookup(m, name) + ValuesOf(pairs, name)
    ensures name in AppendAll(m, pairs) <==> name in m || ValuesOf(pairs, name) != []
    decreases |pairs|
  {
    if pairs == [] {
      assert Lookup(m, name) + [] == Lookup(m, name);
    } else {
      MirrorsConserved(Append(m, pairs[0]), pairs[1..], name);
      if pairs[0].key == name {
        assert Lookup(m, name) + [pairs[0].value] + ValuesOf(pairs[1..], name)
            == Lookup(m, name) + ([pairs[0].value] + ValuesOf(pairs[1..], name));
      } else {
        assert [] + ValuesOf(pairs[1..], name) == ValuesOf(pairs[1..], name);
      }
    }
  }

  /** Every mirror from the comma list starts with "http". */
  lemma {:induction false} ListMirrorsHaveScheme(hub: string, items: seq<string>)
    ensures forall p :: p in ItemPairs(hub, items) ==> HasHTTP(p.value)
  {
    if items != [] { ListMirrorsHaveScheme(hub, items[1..]); }
  }

  /** Because the flags are written in place, building twice from the same flags appends the comma
      list twice. */
  lemma BuildingTwiceDoubles(m: Mirrors, pairs: seq<Pair>, name: string)
    ensures Lookup(AppendAll(AppendAll(m, pairs), pairs), name)
         == Lookup(m, name) + ValuesOf(pairs, name) + ValuesOf(pairs, name)
  {
    MirrorsConserved(m, pairs, name);
    MirrorsConserved(AppendAll(m, pairs), pairs, name);
  }
}
