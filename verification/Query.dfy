/** Query strings: percent-encoding (section 2.1 of RFC 3986), form encoding (section 5 of the
    WHATWG URL Standard), and their round trips. A character stands for a byte of a Go string. */
module Query {
  import opened Sorting

  ghost predicate IsBytes(s: string) {
    forall i :: 0 <= i < |s| ==> s[i] as int < 256
  }

  datatype Decoded = Decoded(text: string) | Malformed

  type Values = map<string, seq<string>>

  // ---------------------------------------------------------------- percent-encoding

  predicate Unreserved(c: char) {
    'a' <= c <= 'z' || 'A' <= c <= 'Z' || '0' <= c <= '9' || c == '-' || c == '_' || c == '.' || c == '~'
  }

  function HexDigit(n: int): char
    requires 0 <= n < 16
  {
    "0123456789ABCDEF"[n]
  }

  function HexValue(c: char): int {
    if '0' <= c <= '9' then c as int - '0' as int
    else if 'A' <= c <= 'F' then c as int - 'A' as int + 10
    else if 'a' <= c <= 'f' then c as int - 'a' as int + 10
    else -1
  }

  function EscapeChar(c: char): string {
    if Unreserved(c) then [c]
    else if c == ' ' then "+"
    else ['%', HexDigit(c as int / 16 % 16), HexDigit(c as int % 16)]
  }

  function QueryEscape(s: string): string {
    if s == [] then [] else EscapeChar(s[0]) + QueryEscape(s[1..])
  }

  function QueryUnescape(s: string): Decoded {
    if s == [] then Decoded([])
    else if s[0] == '%' then
      if |s| < 3 || HexValue(s[1]) < 0 || HexValue(s[2]) < 0 then Malformed
      else Prefixed((16 * HexValue(s[1]) + HexValue(s[2])) as char, QueryUnescape(s[3..]))
    else Prefixed(if s[0] == '+' then ' ' else s[0], QueryUnescape(s[1..]))
  }

  function Prefixed(c: char, rest: Decoded): Decoded {
    if rest.Malformed? then Malformed else Decoded([c] + rest.text)
  }

  lemma HexRoundTrip(n: int)
    requires 0 <= n < 16
    ensures HexValue(HexDigit(n)) == n
  {
  }

  lemma {:induction false} UnescapeHex(c: char, rest: string)
    requires c as int < 256
    ensures QueryUnescape(['%', HexDigit(c as int / 16 % 16), HexDigit(c as int % 16)] + rest)
         == Prefixed(c, QueryUnescape(rest))
  {
    var high, low := c as int / 16 % 16, c as int % 16;
    var e := ['%', HexDigit(high), HexDigit(low)];
    HexRoundTrip(high);
    HexRoundTrip(low);
    assert (e + rest)[3..] == rest && 16 * high + low == c as int;
  }

  lemma {:induction false} UnescapeChar(c: char, rest: string)
    requires c as int < 256
    ensures QueryUnescape(EscapeChar(c) + rest) == Prefixed(c, QueryUnescape(rest))
  {
    if Unreserved(c) || c == ' ' {
      assert (EscapeChar(c) + rest)[1..] == rest;
    } else {
      UnescapeHex(c, rest);
    }
  }

  /** The sixteen hexadecimal digits, the letters in either case. */
  lemma HexValueIs(c: char)
    ensures '0' <= c <= '9' ==> HexValue(c) == c as int - '0' as int
    ensures 'A' <= c <= 'F' ==> HexValue(c) == 10 + (c as int - 'A' as int)
    ensures 'a' <= c <= 'f' ==> HexValue(c) == 10 + (c as int - 'a' as int)
    ensures HexValue(c) >= 0 <==> '0' <= c <= '9' || 'A' <= c <= 'F' || 'a' <= c <= 'f'
  {
  }

  /** Lower-case escapes decode like upper-case ones. */
  lemma {:induction false} LowerCaseDecodes(a: char, b: char, upperA: char, upperB: char, rest: string)
    requires HexValue(a) == HexValue(upperA) && HexValue(b) == HexValue(upperB)
    ensures QueryUnescape(['%', a, b] + rest) == QueryUnescape(['%', upperA, upperB] + rest)
  {
    assert (['%', a, b] + rest)[3..] == rest && (['%', upperA, upperB] + rest)[3..] == rest;
  }

  /** A plus is a space, and everything but a percent sign otherwise stands for itself. */
  lemma {:induction false} UnescapeOther(c: char, rest: string)
    requires c != '%' && QueryUnescape(rest).Decoded?
    ensures QueryUnescape([c] + rest) == Decoded([if c == '+' then ' ' else c] + QueryUnescape(rest).text)
  {
    assert ([c] + rest)[1..] == rest;
  }

  /** Letters, digits and four marks are left alone. */
  lemma UnreservedIs(c: char)
    ensures Unreserved(c) <==>
      'a' <= c <= 'z' || 'A' <= c <= 'Z' || '0' <= c <= '9' || c == '-' || c == '_' || c == '.' || c == '~'
  {
  }

  /** Unescaping undoes escaping on every byte string. */
  lemma {:induction false} EscapeRoundTrip(s: string)
    requires IsBytes(s)
    ensures QueryUnescape(QueryEscape(s)) == Decoded(s)
  {
    if s != [] {
      EscapeRoundTrip(s[1..]);
      UnescapeChar(s[0], QueryEscape(s[1..]));
      assert s == [s[0]] + s[1..];
    }
  }

  /** Escaped text never holds a character with a meaning in a URL. */
  lemma {:induction false} EscapeIsSafe(s: string)
    ensures forall c :: c in QueryEscape(s) ==> Unreserved(c) || c == '+' || c == '%'
  {
    if s != [] {
      EscapeIsSafe(s[1..]);
      assert forall c :: c in EscapeChar(s[0]) ==> Unreserved(c) || c == '+' || c == '%';
    }
  }

  lemma {:induction false} UnescapeBytes(s: string)
    requires IsBytes(s)
    ensures QueryUnescape(s).Decoded? ==> IsBytes(QueryUnescape(s).text)
    decreases |s|
  {
    if s != [] {
      if s[0] == '%' && |s| >= 3 { UnescapeBytes(s[3..]); } else { UnescapeBytes(s[1..]); }
    }
  }

  // ---------------------------------------------------------------- splitting

  /** The parts of `s` between occurrences of `sep`; always at least one. */
  function Split(s: string, sep: char): (parts: seq<string>)
    ensures parts != []
  {
    if s == [] then [""]
    else
      var rest := Split(s[1..], sep);
      if s[0] == sep then [""] + rest else [[s[0]] + rest[0]] + rest[1..]
  }

  function Join(parts: seq<string>, sep: char): string {
    if parts == [] then ""
    else if |parts| == 1 then parts[0]
    else parts[0] + [sep] + Join(parts[1..], sep)
  }

  /** Text before and after the first `sep` (`strings.Cut`). */
  function Cut(s: string, sep: char): (string, string, bool) {
    if s == [] then ("", "", false)
    else if s[0] == sep then ("", s[1..], true)
    else
      var (before, after, found) := Cut(s[1..], sep);
      ([s[0]] + before, after, found)
  }

  lemma {:induction false} SplitPlain(s: string, sep: char)
    requires sep !in s
    ensures Split(s, sep) == [s]
  {
    if s != [] {
      SplitPlain(s[1..], sep);
      assert s == [s[0]] + s[1..];
    }
  }

  lemma {:induction false} SplitFirst(a: string, sep: char, b: string)
    requires sep !in a
    ensures Split(a + [sep] + b, sep) == [a] + Split(b, sep)
  {
    var s := a + [sep] + b;
    if a == [] {
      assert s[1..] == b;
    } else {
      assert s[1..] == a[1..] + [sep] + b;
      SplitFirst(a[1..], sep, b);
      assert a == [a[0]] + a[1..];
    }
  }

  lemma {:induction false} SplitJoin(parts: seq<string>, sep: char)
    requires parts != [] && forall p :: p in parts ==> sep !in p
    ensures Split(Join(parts, sep), sep) == parts
  {
    assert parts == [parts[0]] + parts[1..];
    if |parts| == 1 {
      SplitPlain(parts[0], sep);
    } else {
      SplitJoin(parts[1..], sep);
      SplitFirst(parts[0], sep, Join(parts[1..], sep));
    }
  }

  lemma {:induction false} CutFirst(a: string, sep: char, b: string)
    requires sep !in a
    ensures Cut(a + [sep] + b, sep) == (a, b, true)
  {
    var s := a + [sep] + b;
    if a == [] {
      assert s[1..] == b;
    } else {
      assert s[1..] == a[1..] + [sep] + b;
      CutFirst(a[1..], sep, b);
      assert a == [a[0]] + a[1..];
    }
  }

  lemma {:induction false} CutPlain(a: string, sep: char)
    requires sep !in a
    ensures Cut(a, sep) == (a, "", false)
  {
    if a != [] {
      CutPlain(a[1..], sep);
      assert a == [a[0]] + a[1..];
    }
  }

  lemma {:induction false} CutParts(s: string, sep: char)
    ensures var (a, b, found) := Cut(s, sep);
      && sep !in a
      && s == (if found then a + [sep] + b else a)
      && (!found ==> b == "")
      && (IsBytes(s) ==> IsBytes(a) && IsBytes(b))
  {
    if s != [] {
      CutParts(s[1..], sep);
      assert s == [s[0]] + s[1..];
      if s[0] != sep {
        var (a, b, found) := Cut(s[1..], sep);
        assert [s[0]] + a + [sep] + b == [s[0]] + (a + [sep] + b);
      }
    }
  }

  // ---------------------------------------------------------------- parsing a query

  datatype Pair = Pair(key: string, value: string)

  /** A part counts unless it is empty, holds a semicolon, or does not decode. */
  function ParsePart(part: string): seq<Pair> {
    if ';' in part || part == "" then []
    else
      var (k, v, found) := Cut(part, '=');
      var key, value := QueryUnescape(k), QueryUnescape(v);
      if key.Malformed? || value.Malformed? then [] else [Pair(key.text, value.text)]
  }

  function ParseParts(parts: seq<string>): seq<Pair> {
    if parts == [] then [] else ParsePart(parts[0]) + ParseParts(parts[1..])
  }

  /** Whether `url.ParseQuery` reports no error. */
  predicate WellFormed(parts: seq<string>) {
    forall p :: p in parts && p != "" ==> ParsePart(p) != []
  }

  function Pairs(query: string): seq<Pair> {
    ParseParts(Split(query, '&'))
  }

  /** A part with a semicolon is dropped; one without an equals sign is a key with an empty value. */
  lemma PartIs(part: string)
    ensures ';' in part ==> ParsePart(part) == [] && !WellFormed([part])
    ensures ';' !in part && part != "" && '=' !in part && QueryUnescape(part).Decoded? ==>
      ParsePart(part) == [Pair(QueryUnescape(part).text, "")]
  {
    if ';' in part { assert part in [part] && part != ""; }
    if '=' !in part { CutPlain(part, '='); }
  }

  /** The values of one key, in order of appearance. */
  function ValuesOf(pairs: seq<Pair>, key: string): seq<string> {
    if pairs == [] then []
    else (if pairs[0].key == key then [pairs[0].value] else []) + ValuesOf(pairs[1..], key)
  }

  function Collect(pairs: seq<Pair>): (m: Values)
    ensures forall k :: k in m <==> exists i :: 0 <= i < |pairs| && pairs[i].key == k
    ensures forall k :: k in m ==> m[k] == ValuesOf(pairs, k)
  {
    map k | k in (set p | p in pairs :: p.key) :: ValuesOf(pairs, k)
  }

  function ParseQuery(query: string): Values {
    Collect(Pairs(query))
  }

  // ---------------------------------------------------------------- encoding

  function PairsOfKey(key: string, values: seq<string>): seq<Pair> {
    if values == [] then [] else [Pair(key, values[0])] + PairsOfKey(key, values[1..])
  }

  function PairsOf(m: Values, keys: seq<string>): seq<Pair>
    requires forall k :: k in keys ==> k in m
  {
    if keys == [] then [] else PairsOfKey(keys[0], m[keys[0]]) + PairsOf(m, keys[1..])
  }

  function EncodePair(p: Pair): string {
    QueryEscape(p.key) + "=" + QueryEscape(p.value)
  }

  function EncodePairs(pairs: seq<Pair>): seq<string> {
    if pairs == [] then [] else [EncodePair(pairs[0])] + EncodePairs(pairs[1..])
  }

  /** `url.Values.Encode`: keys in order, each value of a key as its own pair. */
  ghost function Encode(m: Values): string {
    Join(EncodePairs(PairsOf(m, Ordered(m.Keys))), '&')
  }

  ghost predicate ByteValues(m: Values) {
    forall k :: k in m ==> IsBytes(k) && forall v :: v in m[k] ==> IsBytes(v)
  }

  /** The characters that structure a query string. */
  predicate Structural(c: char) {
    c == '&' || c == '=' || c == ';' || c == '?' || c == '#'
  }

  predicate NoneOf(s: string) {
    forall c :: c in s ==> !Structural(c)
  }

  lemma EscapeNotStructural(s: string)
    ensures NoneOf(QueryEscape(s))
  {
    EscapeIsSafe(s);
  }

  lemma EncodedPairSafe(p: Pair)
    ensures forall c :: c in EncodePair(p) ==> !Structural(c) || c == '='
  {
    EscapeNotStructural(p.key);
    EscapeNotStructural(p.value);
  }

  lemma EncodedPairParses(p: Pair)
    requires IsBytes(p.key) && IsBytes(p.value)
    ensures ParsePart(EncodePair(p)) == [p]
    ensures '&' !in EncodePair(p) && '?' !in EncodePair(p) && '#' !in EncodePair(p)
  {
    EncodedPairSafe(p);
    EscapeNotStructural(p.key);
    CutFirst(QueryEscape(p.key), '=', QueryEscape(p.value));
    EscapeRoundTrip(p.key);
    EscapeRoundTrip(p.value);
  }

  lemma {:induction false} EncodedPairsParse(pairs: seq<Pair>)
    requires forall p :: p in pairs ==> IsBytes(p.key) && IsBytes(p.value)
    ensures ParseParts(EncodePairs(pairs)) == pairs
    ensures forall e :: e in EncodePairs(pairs) ==> '&' !in e && '?' !in e && '#' !in e
  {
    if pairs != [] {
      EncodedPairParses(pairs[0]);
      EncodedPairsParse(pairs[1..]);
      assert pairs == [pairs[0]] + pairs[1..];
      var es := EncodePairs(pairs);
      assert es[0] == EncodePair(pairs[0]) && es[1..] == EncodePairs(pairs[1..]);
    }
  }

  lemma {:induction false} PairsOfKeyValues(key: string, values: seq<string>, k: string)
    ensures ValuesOf(PairsOfKey(key, values), k) == if k == key then values else []
    ensures forall p :: p in PairsOfKey(key, values) ==> p.key == key && p.value in values
  {
    if values != [] {
      PairsOfKeyValues(key, values[1..], k);
      assert PairsOfKey(key, values)[1..] == PairsOfKey(key, values[1..]);
      assert values == [values[0]] + values[1..];
    }
  }

  lemma {:induction false} ValuesOfAppend(a: seq<Pair>, b: seq<Pair>, k: string)
    ensures ValuesOf(a + b, k) == ValuesOf(a, k) + ValuesOf(b, k)
  {
    if a == [] {
      assert a + b == b;
    } else {
      assert (a + b)[1..] == a[1..] + b;
      ValuesOfAppend(a[1..], b, k);
    }
  }

  lemma {:induction false} PairsOfValues(m: Values, keys: seq<string>, k: string)
    requires forall x :: x in keys ==> x in m
    requires Increasing(keys)
    ensures ValuesOf(PairsOf(m, keys), k) == if k in keys then m[k] else []
    ensures forall p :: p in PairsOf(m, keys) ==> p.key in keys && p.value in m[p.key]
  {
    if keys != [] {
      TailOfIncreasing(keys);
      PairsOfKeyValues(keys[0], m[keys[0]], k);
      PairsOfValues(m, keys[1..], k);
      ValuesOfAppend(PairsOfKey(keys[0], m[keys[0]]), PairsOf(m, keys[1..]), k);
    }
  }

  lemma {:induction false} ValuesPresent(pairs: seq<Pair>, k: string)
    ensures ValuesOf(pairs, k) != [] <==> exists i :: 0 <= i < |pairs| && pairs[i].key == k
  {
    if pairs != [] {
      ValuesPresent(pairs[1..], k);
      if i :| 0 <= i < |pairs[1..]| && pairs[1..][i].key == k { assert pairs[i + 1].key == k; }
      if i :| 0 < i < |pairs| && pairs[i].key == k { assert pairs[1..][i - 1].key == k; }
    }
  }

  /** The keys with a value, and their lists. */
  function NonEmpty(m: Values): Values {
    map k | k in m && m[k] != [] :: m[k]
  }

  lemma {:induction false} CollectKey(m: Values, k: string)
    ensures var pairs := PairsOf(m, Ordered(m.Keys));
      && (k in Collect(pairs) <==> k in m && m[k] != [])
      && (k in m ==> ValuesOf(pairs, k) == m[k])
  {
    var keys := Ordered(m.Keys);
    PairsOfValues(m, keys, k);
    ValuesPresent(PairsOf(m, keys), k);
  }

  /** Collecting the pairs of a map gives the map back, up to keys with an empty value list. */
  lemma {:induction false} CollectPairs(m: Values)
    ensures Collect(PairsOf(m, Ordered(m.Keys))) == NonEmpty(m)
  {
    var r := Collect(PairsOf(m, Ordered(m.Keys)));
    forall k
      ensures k in r <==> k in NonEmpty(m)
      ensures k in r ==> r[k] == NonEmpty(m)[k]
    {
      CollectKey(m, k);
    }
  }

  /** Form encoding round trip: parsing an encoded map yields exactly its non-empty lists. */
  lemma EncodeRoundTrip(m: Values)
    requires ByteValues(m)
    ensures ParseQuery(Encode(m)) == NonEmpty(m)
    ensures '?' !in Encode(m) && '#' !in Encode(m)
  {
    var keys := Ordered(m.Keys);
    var pairs := PairsOf(m, keys);
    if keys != [] { PairsOfValues(m, keys, keys[0]); }
    EncodedPairsParse(pairs);
    CollectPairs(m);
    JoinSafe(EncodePairs(pairs), '&');
    if pairs == [] {
      assert Split("", '&') == [""];
      assert Pairs(Encode(m)) == [];
    } else {
      SplitJoin(EncodePairs(pairs), '&');
    }
  }

  lemma {:induction false} JoinSafe(parts: seq<string>, sep: char)
    requires forall p :: p in parts ==> '?' !in p && '#' !in p
    requires sep != '?' && sep != '#'
    ensures '?' !in Join(parts, sep) && '#' !in Join(parts, sep)
  {
    if |parts| > 1 { JoinSafe(parts[1..], sep); }
  }

  /** What a query parses to is again made of byte strings and has no empty list. */
  lemma ParsedValues(query: string)
    requires IsBytes(query)
    ensures ByteValues(ParseQuery(query))
    ensures forall k :: k in ParseQuery(query) ==> ParseQuery(query)[k] != []
  {
    SplitBytes(query, '&');
    PartsBytes(Split(query, '&'));
    var pairs := Pairs(query);
    forall k | k in ParseQuery(query)
      ensures IsBytes(k) && ValuesOf(pairs, k) != []
      ensures forall v :: v in ValuesOf(pairs, k) ==> IsBytes(v)
    {
      ValuesPresent(pairs, k);
      ValuesFrom(pairs, k);
    }
  }

  lemma {:induction false} SplitBytes(s: string, sep: char)
    requires IsBytes(s)
    ensures forall p :: p in Split(s, sep) ==> IsBytes(p)
  {
    if s != [] {
      SplitBytes(s[1..], sep);
      var rest := Split(s[1..], sep);
      assert rest[0] in rest;
      assert forall p :: p in rest[1..] ==> p in rest;
    }
  }

  lemma {:induction false} PartsBytes(parts: seq<string>)
    requires forall p :: p in parts ==> IsBytes(p)
    ensures forall q :: q in ParseParts(parts) ==> IsBytes(q.key) && IsBytes(q.value)
  {
    if parts != [] {
      PartsBytes(parts[1..]);
      var (k, v, found) := Cut(parts[0], '=');
      assert IsBytes(parts[0]);
      CutParts(parts[0], '=');
      UnescapeBytes(k);
      UnescapeBytes(v);
    }
  }

  lemma {:induction false} ValuesFrom(pairs: seq<Pair>, k: string)
    ensures forall v :: v in ValuesOf(pairs, k) ==> Pair(k, v) in pairs
  {
    if pairs != [] {
      ValuesFrom(pairs[1..], k);
      assert pairs == [pairs[0]] + pairs[1..];
    }
  }

  // ---------------------------------------------------------------- as executed

  /** The keys of a map in whatever order iteration yields them. */
  method CollectKeys(s: set<string>) returns (xs: seq<string>)
    ensures forall x :: x in xs <==> x in s
  {
    xs := [];
    var rest := s;
    while rest != {}
      invariant rest <= s
      invariant forall x :: x in xs <==> x in s - rest
    {
      var x :| x in rest;
      xs := xs + [x];
      rest := rest - {x};
    }
  }

  method EncodeValues(m: Values) returns (query: string)
    ensures query == Encode(m)
  {
    var keys := CollectKeys(m.Keys);
    SortingForgetsOrder(keys, m.Keys);
    query := Join(EncodePairs(PairsOf(m, SortUnique(keys))), '&');
  }
}
