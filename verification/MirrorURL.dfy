/** Mirror URLs and the `kubermatic` marker in their query. */
module MirrorURL {
  import opened Query
  import opened Sorting

  /** The registry that mirrors belong to when they name none. */
  const DOCKER := "docker.io"

  const MARKER := "kubermatic"
  const OVERRIDE := "override_path"

  /** What is left to Go's URL parser: which strings it takes, and how it prints the text before the
      query and the fragment. */
  datatype Parser = Parser(parses: string -> bool, printHead: string -> string, printFragment: string -> string)

  /** Printing a head never brings a query or a fragment into it: both characters are escaped there. */
  ghost predicate Sane(p: Parser) {
    forall h: string {:trigger p.printHead(h)} ::
      '?' !in h && '#' !in h ==> '?' !in p.printHead(h) && '#' !in p.printHead(h)
  }

  function WithoutFragment(url: string): string {
    Cut(url, '#').0
  }

  function Fragment(url: string): string {
    Cut(url, '#').1
  }

  function Head(url: string): string {
    Cut(WithoutFragment(url), '?').0
  }

  function RawQuery(url: string): string {
    Cut(WithoutFragment(url), '?').1
  }

  function QueryOf(url: string): Values {
    ParseQuery(RawQuery(url))
  }

  function Print(p: Parser, head: string, query: string, fragment: string): string {
    p.printHead(head)
      + (if query == "" then "" else "?" + query)
      + (if fragment == "" then "" else "#" + p.printFragment(fragment))
  }

  /** The URL without the marker; untouched if it does not parse or carries none. */
  ghost function Strip(p: Parser, url: string): string {
    if !p.parses(url) || MARKER !in QueryOf(url) then url
    else Print(p, Head(url), Encode(QueryOf(url) - {MARKER}), Fragment(url))
  }

  method StripKubermaticParam(p: Parser, url: string) returns (stripped: string)
    ensures stripped == Strip(p, url)
  {
    if !p.parses(url) {
      return url;
    }
    var query := QueryOf(url);
    if MARKER !in query {
      return url;
    }
    var rest := EncodeValues(query - {MARKER});
    stripped := Print(p, Head(url), rest, Fragment(url));
  }

  predicate ParsesTrue(s: string) {
    s in ["1", "t", "T", "TRUE", "true", "True"]
  }

  function First(m: Values, key: string): string {
    if key in m && m[key] != [] then m[key][0] else ""
  }

  /** The marker's value is itself an escaped query whose `override_path` is read as a boolean. */
  predicate OverridePath(p: Parser, url: string) {
    && p.parses(url) && MARKER in QueryOf(url)
    && var inner := QueryUnescape(First(QueryOf(url), MARKER));
       inner.Decoded? && WellFormed(Split(inner.text, '&')) && ParsesTrue(First(ParseQuery(inner.text), OVERRIDE))
  }

  // ---------------------------------------------------------------- results

  lemma PrintedParts(p: Parser, head: string, query: string, fragment: string)
    requires Sane(p) && '?' !in head && '#' !in head && '?' !in query && '#' !in query
    ensures RawQuery(Print(p, head, query, fragment)) == query
  {
    var h := p.printHead(head);
    var front := h + (if query == "" then "" else "?" + query);
    var url := Print(p, head, query, fragment);
    assert '#' !in front;
    if fragment == "" {
      assert url == front;
      CutPlain(front, '#');
    } else {
      assert url == front + ['#'] + p.printFragment(fragment);
      CutFirst(front, '#', p.printFragment(fragment));
    }
    if query == "" {
      assert front == h;
      CutPlain(h, '?');
    } else {
      assert front == h + ['?'] + query;
      CutFirst(h, '?', query);
    }
  }

  lemma UrlParts(url: string)
    ensures '?' !in Head(url) && '#' !in Head(url)
    ensures IsBytes(url) ==> IsBytes(RawQuery(url))
  {
    CutParts(url, '#');
    CutParts(WithoutFragment(url), '?');
    assert forall c :: c in Head(url) ==> c in WithoutFragment(url);
  }

  /** Stripping removes exactly the marker: every other key keeps its decoded values in order. */
  lemma StripRemovesMarker(p: Parser, url: string)
    requires Sane(p) && IsBytes(url) && p.parses(url)
    ensures QueryOf(Strip(p, url)) == QueryOf(url) - {MARKER}
  {
    var m := QueryOf(url);
    if MARKER in m {
      UrlParts(url);
      ParsedValues(RawQuery(url));
      var rest := m - {MARKER};
      EncodeRoundTrip(rest);
      PrintedParts(p, Head(url), Encode(rest), Fragment(url));
    } else {
      assert m - {MARKER} == m;
    }
  }

  /** Stripping twice is stripping once. */
  lemma StripIdempotent(p: Parser, url: string)
    requires Sane(p) && IsBytes(url)
    ensures Strip(p, Strip(p, url)) == Strip(p, url)
  {
    if p.parses(url) { StripRemovesMarker(p, url); }
  }

  predicate Plain(s: string) {
    forall c :: c in s ==> Unreserved(c)
  }

  lemma {:induction false} PlainText(s: string)
    requires Plain(s)
    ensures QueryEscape(s) == s && QueryUnescape(s) == Decoded(s) && IsBytes(s)
    ensures forall c :: Structural(c) ==> c !in s
  {
    if s != [] {
      PlainText(s[1..]);
      assert s == [s[0]] + s[1..];
    }
  }

  function Prepended(s: string, d: Decoded): Decoded {
    if d.Malformed? then Malformed else Decoded(s + d.text)
  }

  lemma {:induction false} PrependFirst(c: char, s: string, d: Decoded)
    ensures Prefixed(c, Prepended(s, d)) == Prepended([c] + s, d)
  {
    if d.Decoded? { assert [c] + (s + d.text) == [c] + s + d.text; }
  }

  lemma {:induction false} UnescapeAppend(s: string, t: string)
    requires Plain(s)
    ensures QueryUnescape(s + t) == Prepended(s, QueryUnescape(t))
  {
    var d := QueryUnescape(t);
    if s == [] {
      assert s + t == t && (d.Decoded? ==> s + d.text == d.text);
    } else {
      var c, rest := s[0], s[1..];
      assert s == [c] + rest && [c] + rest + t == [c] + (rest + t);
      UnescapeAppend(rest, t);
      PlainFirst(c, rest + t);
      PrependFirst(c, rest, d);
    }
  }

  lemma {:induction false} PlainFirst(c: char, rest: string)
    requires Unreserved(c)
    ensures QueryUnescape([c] + rest) == Prefixed(c, QueryUnescape(rest))
  {
    assert ([c] + rest)[1..] == rest;
  }

  lemma UnescapeSetting(key: string, value: string)
    requires Plain(key) && Plain(value)
    ensures QueryUnescape(key + ['='] + value) == Decoded(key + ['='] + value)
  {
    var t := ['='] + value;
    PlainText(value);
    assert t[1..] == value;
    assert QueryUnescape(t) == Decoded(['='] + value);
    UnescapeAppend(key, t);
    assert key + ['='] + value == key + t;
  }

  lemma {:induction false} PlainSafe(key: string, value: string)
    requires Plain(key) && Plain(value)
    ensures var s := key + ['='] + value; '&' !in s && ';' !in s && IsBytes(s)
  {
    PlainText(key);
    PlainText(value);
    assert forall c :: c in key + ['='] + value ==> c in key || c == '=' || c in value;
  }

  lemma {:induction false} PlainPart(key: string, value: string)
    requires Plain(key) && Plain(value)
    ensures ParsePart(key + ['='] + value) == [Pair(key, value)]
  {
    PlainText(key);
    PlainText(value);
    PlainSafe(key, value);
    CutFirst(key, '=', value);
  }

  /** A query of one plain setting parses, even after one more unescaping. */
  lemma {:induction false} PlainSetting(key: string, value: string)
    requires Plain(key) && Plain(value)
    ensures var s := key + ['='] + value;
      && IsBytes(s) && QueryUnescape(s) == Decoded(s)
      && WellFormed(Split(s, '&')) && ParseQuery(s) == map[key := [value]]
  {
    var s := key + ['='] + value;
    PlainSafe(key, value);
    PlainPart(key, value);
    UnescapeSetting(key, value);
    SplitPlain(s, '&');
    OnePair(s, Pair(key, value));
  }

  lemma OnePair(query: string, pair: Pair)
    requires Split(query, '&') == [query] && ParsePart(query) == [pair]
    ensures ParseQuery(query) == map[pair.key := [pair.value]] && WellFormed(Split(query, '&'))
  {
    assert ParseParts([query]) == ParsePart(query) + ParseParts([query][1..]);
    assert Pairs(query) == [pair];
    assert ValuesOf([pair], pair.key) == [pair.value];
    var m := ParseQuery(query);
    assert forall k :: k in m <==> k == pair.key;
  }

  lemma OneParameter(head: string, key: string, value: string)
    requires '?' !in head && '#' !in head && Plain(key) && IsBytes(value)
    ensures var url := head + ['?'] + (key + ['='] + QueryEscape(value));
      QueryOf(url) == map[key := [value]] && Head(url) == head && Fragment(url) == ""
  {
    var pair := Pair(key, value);
    PlainText(key);
    var url := head + ['?'] + (key + ['='] + QueryEscape(value));
    assert EncodePair(pair) == key + ['='] + QueryEscape(value);
    EncodedPairParses(pair);
    CutPlain(url, '#');
    CutFirst(head, '?', EncodePair(pair));
    SplitPlain(EncodePair(pair), '&');
    OnePair(EncodePair(pair), pair);
  }

  lemma PlainNames()
    ensures Plain(MARKER) && Plain(OVERRIDE)
  {
  }

  /** Go reads six spellings as true; every other text is false here. */
  lemma TrueSpellings(s: string)
    ensures ParsesTrue(s) <==> s == "1" || s == "t" || s == "T" || s == "TRUE" || s == "true" || s == "True"
  {
  }

  /** A URL marked with a plain `override_path` setting: the setting is on exactly for a spelling of true,
      and stripping leaves nothing of the marker. */
  lemma {:induction false} MarkedMirror(p: Parser, head: string, setting: string)
    requires Sane(p) && '?' !in head && '#' !in head && Plain(setting)
    requires var url := head + ['?'] + ("kubermatic" + ['='] + QueryEscape("override_path" + ['='] + setting));
      p.parses(url)
    ensures var url := head + ['?'] + ("kubermatic" + ['='] + QueryEscape("override_path" + ['='] + setting));
      && Strip(p, url) == p.printHead(head)
      && (OverridePath(p, url) <==>
            || setting == "1" || setting == "t" || setting == "T"
            || setting == "TRUE" || setting == "true" || setting == "True")
  {
    MarkedReads(p, head, setting);
    TrueSpellings(setting);
  }

  /** Without the marker, or with a URL that does not parse, nothing is read and nothing is stripped. */
  lemma UnmarkedMirror(p: Parser, url: string)
    requires !p.parses(url) || "kubermatic" !in QueryOf(url)
    ensures !OverridePath(p, url) && Strip(p, url) == url
  {
  }

  lemma {:induction false} MarkedReads(p: Parser, head: string, setting: string)
    requires Sane(p) && '?' !in head && '#' !in head && Plain(setting)
    requires var url := head + ['?'] + (MARKER + ['='] + QueryEscape(OVERRIDE + ['='] + setting)); p.parses(url)
    ensures var url := head + ['?'] + (MARKER + ['='] + QueryEscape(OVERRIDE + ['='] + setting));
      (OverridePath(p, url) <==> ParsesTrue(setting)) && Strip(p, url) == p.printHead(head)
  {
    PlainNames();
    Marked(p, head, MARKER, OVERRIDE, setting);
    EmptyEncodes();
  }

  lemma Marked(p: Parser, head: string, marker: string, override: string, setting: string)
    requires '?' !in head && '#' !in head && Plain(setting) && Plain(marker) && Plain(override)
    ensures var inner := override + ['='] + setting; var url := head + ['?'] + (marker + ['='] + QueryEscape(inner));
      && QueryOf(url) == map[marker := [inner]] && Head(url) == head && Fragment(url) == ""
      && QueryUnescape(inner) == Decoded(inner) && WellFormed(Split(inner, '&'))
      && ParseQuery(inner) == map[override := [setting]]
      && QueryOf(url) - {marker} == map[]
  {
    var inner := override + ['='] + setting;
    PlainSetting(override, setting);
    OneParameter(head, marker, inner);
  }

  lemma EmptyEncodes()
    ensures Encode(map[]) == ""
  {
    var m: Values := map[];
    IncreasingUnique(Ordered(m.Keys), []);
  }
}
