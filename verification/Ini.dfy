/** Escaped values of ini files, and a line reader that follows the same escape rules. */
module Ini {
  import opened Query
  import opened Cluster

  // ---------------------------------------------------------------- escaping

  function EscapeIniChar(c: char): string {
    if c == '\\' || c == '"' then ['\\', c] else [c]
  }

  function EscapeAll(s: string): string {
    if s == [] then [] else EscapeIniChar(s[0]) + EscapeAll(s[1..])
  }

  /** Backslashes and quotes are escaped in one pass, and the whole is quoted. */
  function Escape(s: string): string {
    ['"'] + EscapeAll(s) + ['"']
  }

  /** A text without backslashes and quotes is only put in quotes; each of those gets a backslash. */
  lemma {:induction false} EscapeIs(s: string)
    ensures '\\' !in s && '"' !in s ==> EscapeAll(s) == s
    ensures Escape("\\") == "\"\\\\\"" && Escape("\"") == "\"\\\"\""
  {
    if s != [] && '\\' !in s && '"' !in s {
      assert s == [s[0]] + s[1..];
      EscapeIs(s[1..]);
    }
    assert EscapeAll("\\") == EscapeIniChar('\\') + EscapeAll([]);
    assert EscapeAll("\"") == EscapeIniChar('"') + EscapeAll([]);
  }

  /** Text up to the first unescaped quote, unescaped, and what follows that quote. */
  function ReadBody(s: string): Option<(string, string)> {
    if s == [] then None
    else if s[0] == '"' then Some(([], s[1..]))
    else if s[0] == '\\' then
      if |s| < 2 || !(s[1] == '\\' || s[1] == '"') then None
      else Consed(s[1], ReadBody(s[2..]))
    else Consed(s[0], ReadBody(s[1..]))
  }

  function Consed(c: char, r: Option<(string, string)>): Option<(string, string)> {
    if r.None? then None else Some(([c] + r.value.0, r.value.1))
  }

  function ReadQuoted(s: string): Option<(string, string)> {
    if s == [] || s[0] != '"' then None else ReadBody(s[1..])
  }

  lemma {:induction false} ReadsBack(s: string, rest: string)
    ensures ReadBody(EscapeAll(s) + ['"'] + rest) == Some((s, rest))
  {
    var text := EscapeAll(s) + ['"'] + rest;
    if s == [] {
      assert text[1..] == rest;
    } else {
      ReadsBack(s[1..], rest);
      var tail := EscapeAll(s[1..]) + ['"'] + rest;
      assert text == EscapeIniChar(s[0]) + tail;
      if s[0] == '\\' || s[0] == '"' {
        assert text[2..] == tail;
      } else {
        assert text[1..] == tail;
      }
      assert [s[0]] + s[1..] == s;
    }
  }

  /** Reading an escaped value gives the value back, for every string, and stops at its end. */
  lemma EscapeReadsBack(s: string, rest: string)
    ensures ReadQuoted(Escape(s) + rest) == Some((s, rest))
  {
    ReadsBack(s, rest);
    assert (Escape(s) + rest)[1..] == EscapeAll(s) + ['"'] + rest;
  }

  /** Positions, from `i` on, of quotes that no backslash escapes. */
  function OpenQuotes(s: string, i: nat): seq<nat> {
    if s == [] then []
    else if s[0] == '\\' then if |s| == 1 then [] else OpenQuotes(s[2..], i + 2)
    else (if s[0] == '"' then [i] else []) + OpenQuotes(s[1..], i + 1)
  }

  lemma {:induction false} BodyHasNoOpenQuote(s: string, i: nat)
    ensures OpenQuotes(EscapeAll(s) + ['"'], i) == [i + |EscapeAll(s)|]
  {
    var text := EscapeAll(s) + ['"'];
    if s == [] {
      assert text[1..] == [];
    } else {
      var tail := EscapeAll(s[1..]) + ['"'];
      assert text == EscapeIniChar(s[0]) + tail;
      if s[0] == '\\' || s[0] == '"' {
        assert text[2..] == tail;
        BodyHasNoOpenQuote(s[1..], i + 2);
      } else {
        assert text[1..] == tail;
        BodyHasNoOpenQuote(s[1..], i + 1);
        assert [] + OpenQuotes(tail, i + 1) == OpenQuotes(tail, i + 1);
      }
    }
  }

  /** The only unescaped quotes are the outer two. */
  lemma OnlyOuterQuotesOpen(s: string)
    ensures OpenQuotes(Escape(s), 0) == [0, |Escape(s)| - 1]
  {
    assert Escape(s)[1..] == EscapeAll(s) + ['"'];
    BodyHasNoOpenQuote(s, 1);
  }

  lemma {:induction false} EscapeKeepsLine(s: string)
    requires '\n' !in s
    ensures '\n' !in EscapeAll(s)
  {
    if s != [] {
      assert s[0] in s && forall c :: c in s[1..] ==> c in s;
      EscapeKeepsLine(s[1..]);
    }
  }

  // ---------------------------------------------------------------- lines

  datatype Value = Quoted(text: string) | Raw(text: string)

  datatype Line =
    | Blank
    | Header(section: string, sub: Option<string>)
    | Setting(key: string, pad: nat, value: Value)

  function Spaces(n: nat): string {
    if n == 0 then [] else [' '] + Spaces(n - 1)
  }

  function RenderValue(v: Value): string {
    if v.Quoted? then Escape(v.text) else v.text
  }

  function RenderLine(l: Line): string {
    match l
    case Blank => []
    case Header(section, sub) =>
      if sub.None? then ['['] + section + [']'] else ['['] + (section + [' '] + Escape(sub.value)) + [']']
    case Setting(key, pad, value) => key + Spaces(pad) + ['='] + ([' '] + RenderValue(value))
  }

  datatype Item = Nothing | Section(section: string, sub: Option<string>) | Assign(key: string, text: string) | Bad

  function TrimSpacesRight(s: string): string {
    if s != [] && s[|s| - 1] == ' ' then TrimSpacesRight(s[..|s| - 1]) else s
  }

  function TrimSpacesLeft(s: string): string {
    if s != [] && s[0] == ' ' then TrimSpacesLeft(s[1..]) else s
  }

  function ReadHeader(inner: string): Item {
    var (name, rest, found) := Cut(inner, ' ');
    if !found then Section(name, None)
    else
      var sub := ReadQuoted(rest);
      if sub.Some? && sub.value.1 == [] then Section(name, Some(sub.value.0)) else Bad
  }

  function ReadValue(key: string, v: string): Item {
    if v != [] && v[0] == '"' then
      var text := ReadQuoted(v);
      if text.Some? && text.value.1 == [] then Assign(key, text.value.0) else Bad
    else Assign(key, v)
  }

  function ReadLine(s: string): Item {
    if s == [] then Nothing
    else if s[0] == '[' then
      if s[|s| - 1] == ']' && |s| >= 2 then ReadHeader(s[1..|s| - 1]) else Bad
    else
      var (key, v, found) := Cut(s, '=');
      if found then ReadValue(TrimSpacesRight(key), TrimSpacesLeft(v)) else Bad
  }

  function ItemOf(l: Line): Item {
    match l
    case Blank => Nothing
    case Header(section, sub) => Section(section, sub)
    case Setting(key, _, value) => Assign(key, value.text)
  }

  /** Names the reader can tell from the syntax around them; raw values that need no quotes. */
  predicate Framed(l: Line) {
    match l
    case Blank => true
    case Header(section, sub) => ' ' !in section && '\n' !in section
    case Setting(key, _, value) =>
      && key != [] && key[0] != '[' && key[|key| - 1] != ' ' && '=' !in key && '\n' !in key
      && (value.Raw? ==> '\n' !in value.text)
      && (value.Raw? && value.text != [] ==> value.text[0] != ' ' && value.text[0] != '"')
  }

  /** No text in the line holds a line break. */
  predicate OneLine(l: Line) {
    match l
    case Blank => true
    case Header(_, sub) => sub.Some? ==> '\n' !in sub.value
    case Setting(_, _, value) => '\n' !in value.text
  }

  predicate Clean(l: Line) {
    Framed(l) && OneLine(l)
  }

  lemma {:induction false} TrimPadding(key: string, pad: nat)
    requires key == [] || key[|key| - 1] != ' '
    ensures TrimSpacesRight(key + Spaces(pad)) == key && '=' !in Spaces(pad) && '\n' !in Spaces(pad)
  {
    if pad == 0 {
      assert key + Spaces(pad) == key;
    } else {
      TrimPadding(key, pad - 1);
      SpacesEnd(pad);
      var s := key + Spaces(pad);
      assert s[|s| - 1] == ' ' && s[..|s| - 1] == key + Spaces(pad - 1);
    }
  }

  lemma {:induction false} SpacesEnd(n: nat)
    requires n > 0
    ensures Spaces(n) == Spaces(n - 1) + [' '] && |Spaces(n)| == n
  {
    if n == 1 {
      assert Spaces(1) == [' '] + Spaces(0);
    } else {
      SpacesEnd(n - 1);
      assert [' '] + (Spaces(n - 2) + [' ']) == ([' '] + Spaces(n - 2)) + [' '];
    }
  }

  lemma ValueReadsBack(key: string, v: Value)
    requires v.Raw? && v.text != [] ==> v.text[0] != ' ' && v.text[0] != '"'
    ensures ReadValue(key, TrimSpacesLeft([' '] + RenderValue(v))) == Assign(key, v.text)
  {
    var text := RenderValue(v);
    assert ([' '] + text)[1..] == text;
    if v.Quoted? {
      EscapeReadsBack(v.text, []);
      assert text + [] == text;
    }
  }

  lemma HeaderReadsBack(section: string, sub: Option<string>)
    requires ' ' !in section && '\n' !in section && (sub.Some? ==> '\n' !in sub.value)
    ensures ReadLine(RenderLine(Header(section, sub))) == Section(section, sub)
    ensures '\n' !in RenderLine(Header(section, sub))
  {
    var inner := if sub.None? then section else section + [' '] + Escape(sub.value);
    if sub.None? {
      CutPlain(section, ' ');
    } else {
      CutFirst(section, ' ', Escape(sub.value));
      EscapeReadsBack(sub.value, []);
      assert Escape(sub.value) + [] == Escape(sub.value);
      EscapeKeepsLine(sub.value);
    }
    assert ReadHeader(inner) == Section(section, sub) && '\n' !in inner;
    BracketsReadBack(inner);
  }

  lemma BracketsReadBack(inner: string)
    ensures ReadLine(['['] + inner + [']']) == ReadHeader(inner)
  {
    var s := ['['] + inner + [']'];
    assert s[1..|s| - 1] == inner;
  }

  lemma {:induction false} SettingReadsBack(key: string, pad: nat, value: Value)
    requires Clean(Setting(key, pad, value))
    ensures ReadLine(RenderLine(Setting(key, pad, value))) == Assign(key, value.text)
    ensures '\n' !in RenderLine(Setting(key, pad, value))
  {
    var name, text := key + Spaces(pad), [' '] + RenderValue(value);
    var line := name + ['='] + text;
    TrimPadding(key, pad);
    CutFirst(name, '=', text);
    ValueReadsBack(key, value);
    if value.Quoted? { EscapeKeepsLine(value.text); }
    assert line[0] == key[0];
    assert ReadLine(line) == ReadValue(key, TrimSpacesLeft(text));
    assert '\n' !in name && '\n' !in text;
  }

  lemma LineReadsBack(l: Line)
    requires Clean(l)
    ensures ReadLine(RenderLine(l)) == ItemOf(l) && '\n' !in RenderLine(l)
  {
    match l
    case Blank =>
    case Header(section, sub) => HeaderReadsBack(section, sub);
    case Setting(key, pad, value) => SettingReadsBack(key, pad, value);
  }

  // ---------------------------------------------------------------- documents

  /** Every line ends with a line break. */
  function RenderLines(lines: seq<Line>): string {
    if lines == [] then [] else RenderLine(lines[0]) + ['\n'] + RenderLines(lines[1..])
  }

  function ReadTexts(texts: seq<string>): seq<Item> {
    if texts == [] then [] else [ReadLine(texts[0])] + ReadTexts(texts[1..])
  }

  function ItemsOf(lines: seq<Line>): seq<Item> {
    if lines == [] then [Nothing] else [ItemOf(lines[0])] + ItemsOf(lines[1..])
  }

  lemma {:induction false} LinesReadBack(lines: seq<Line>)
    requires forall l :: l in lines ==> Clean(l)
    ensures ReadTexts(Split(RenderLines(lines), '\n')) == ItemsOf(lines)
  {
    if lines == [] {
      assert Split([], '\n') == [""];
      assert ReadTexts([""]) == [ReadLine("")] + ReadTexts([""][1..]);
    } else {
      assert lines[0] in lines && forall l :: l in lines[1..] ==> l in lines;
      LineReadsBack(lines[0]);
      LinesReadBack(lines[1..]);
      SplitFirst(RenderLine(lines[0]), '\n', RenderLines(lines[1..]));
      var rest := Split(RenderLines(lines[1..]), '\n');
      assert ([RenderLine(lines[0])] + rest)[1..] == rest;
    }
  }

  /** One setting under its section. */
  datatype Entry = Entry(section: string, sub: Option<string>, key: string, text: string)

  /** The settings of a document, in order; None if a line does not read. */
  function EntriesOf(items: seq<Item>, section: string, sub: Option<string>): Option<seq<Entry>> {
    if items == [] then Some([])
    else
      match items[0]
      case Nothing => EntriesOf(items[1..], section, sub)
      case Section(s, u) => EntriesOf(items[1..], s, u)
      case Bad => None
      case Assign(key, text) =>
        var rest := EntriesOf(items[1..], section, sub);
        if rest.None? then None else Some([Entry(section, sub, key, text)] + rest.value)
  }

  function Read(text: string): Option<seq<Entry>> {
    EntriesOf(ReadTexts(Split(text, '\n')), "", None)
  }

  /** What a rendered document means, read off its lines. */
  function Meaning(lines: seq<Line>, section: string, sub: Option<string>): seq<Entry> {
    if lines == [] then []
    else
      match lines[0]
      case Blank => Meaning(lines[1..], section, sub)
      case Header(s, u) => Meaning(lines[1..], s, u)
      case Setting(key, _, value) => [Entry(section, sub, key, value.text)] + Meaning(lines[1..], section, sub)
  }

  lemma {:induction false} MeaningIsEntries(lines: seq<Line>, section: string, sub: Option<string>)
    ensures EntriesOf(ItemsOf(lines), section, sub) == Some(Meaning(lines, section, sub))
  {
    if lines != [] {
      var items := ItemsOf(lines);
      assert items[1..] == ItemsOf(lines[1..]);
      match lines[0]
      case Blank => MeaningIsEntries(lines[1..], section, sub);
      case Header(s, u) => MeaningIsEntries(lines[1..], s, u);
      case Setting(key, _, value) => MeaningIsEntries(lines[1..], section, sub);
    } else {
      assert ItemsOf(lines)[1..] == [];
    }
  }

  /** Reading a rendered document recovers every setting under its section. */
  lemma DocumentReadsBack(lines: seq<Line>)
    requires forall l :: l in lines ==> Clean(l)
    ensures Read(RenderLines(lines)) == Some(Meaning(lines, "", None))
  {
    LinesReadBack(lines);
    MeaningIsEntries(lines, "", None);
  }

  // ---------------------------------------------------------------- line breaks

  lemma {:induction false} EscapeAllOfSum(a: string, b: string)
    ensures EscapeAll(a + b) == EscapeAll(a) + EscapeAll(b)
  {
    if a == [] {
      assert a + b == b;
    } else {
      assert (a + b)[1..] == a[1..] + b;
      EscapeAllOfSum(a[1..], b);
    }
  }

  lemma {:induction false} OpenBodyIsUnreadable(s: string)
    ensures ReadBody(EscapeAll(s)).None?
  {
    if s != [] {
      var tail := EscapeAll(s[1..]);
      OpenBodyIsUnreadable(s[1..]);
      if s[0] == '\\' || s[0] == '"' {
        assert EscapeAll(s)[2..] == tail;
      } else {
        assert EscapeAll(s)[1..] == tail;
      }
    }
  }

  /** An escaped text up to its first line break. */
  lemma {:induction false} EscapeBroken(s: string) returns (before: string, after: string)
    requires '\n' in s
    ensures '\n' !in EscapeAll(before) && Escape(s) == ['"'] + EscapeAll(before) + ['\n'] + after
  {
    CutParts(s, '\n');
    var (a, b, found) := Cut(s, '\n');
    before, after := a, EscapeAll(b) + ['"'];
    EscapeKeepsLine(a);
    EscapeOfBroken(a, b);
    Quotes(EscapeAll(a), EscapeAll(b));
  }

  lemma Quotes(x: string, y: string)
    ensures ['"'] + (x + ['\n'] + y) + ['"'] == ['"'] + x + ['\n'] + (y + ['"'])
  {
  }

  lemma {:induction false} EscapeOfBroken(a: string, b: string)
    ensures EscapeAll(a + ['\n'] + b) == EscapeAll(a) + ['\n'] + EscapeAll(b)
  {
    var tail := ['\n'] + b;
    assert tail[1..] == b && a + ['\n'] + b == a + tail;
    EscapeAllOfSum(a, tail);
  }

  lemma {:induction false} EscapeOfEnd(s: string)
    requires s != [] && EscapeAll(s)[|EscapeAll(s)| - 1] == ']'
    ensures EscapeAll(s) == EscapeAll(s[..|s| - 1]) + [']']
  {
    var short, end := s[..|s| - 1], s[|s| - 1];
    assert s == short + [end];
    EscapeAllOfSum(short, [end]);
    assert EscapeAll([end]) == EscapeIniChar(end) + EscapeAll([end][1..]);
  }

  lemma {:induction false} OpenTextIsUnreadable(text: string)
    ensures ReadQuoted(['"'] + EscapeAll(text)).None?
  {
    OpenBodyIsUnreadable(text);
    assert (['"'] + EscapeAll(text))[1..] == EscapeAll(text);
  }

  lemma {:induction false} OpenHeaderIsBad(section: string, text: string)
    requires ' ' !in section
    ensures ReadLine(['['] + (section + [' '] + (['"'] + EscapeAll(text)))) == Bad
  {
    var line := ['['] + (section + [' '] + (['"'] + EscapeAll(text)));
    if line[|line| - 1] == ']' {
      assert text != [];
      var short := text[..|text| - 1];
      EscapeOfEnd(text);
      var open := ['"'] + EscapeAll(short);
      assert line[1..|line| - 1] == section + [' '] + open;
      CutFirst(section, ' ', open);
      OpenTextIsUnreadable(short);
    }
  }

  lemma OpenSettingIsBad(key: string, pad: nat, text: string)
    requires key != [] && key[0] != '[' && '=' !in key && key[|key| - 1] != ' '
    ensures ReadLine(key + Spaces(pad) + ['='] + ([' '] + (['"'] + EscapeAll(text)))) == Bad
  {
    TrimPadding(key, pad);
    var value := ['"'] + EscapeAll(text);
    var line := key + Spaces(pad) + ['='] + ([' '] + value);
    CutFirst(key + Spaces(pad), '=', [' '] + value);
    assert ([' '] + value)[1..] == value && value[1..] == EscapeAll(text);
    OpenBodyIsUnreadable(text);
    assert ReadQuoted(value).None? && TrimSpacesLeft([' '] + value) == value;
    assert line[0] == key[0];
    assert ReadLine(line) == ReadValue(key, value);
  }

  /** The first line of a text that holds an escaped value with a line break. */
  lemma FirstLineOfBroken(head: string, text: string, tail: string) returns (before: string)
    requires '\n' !in head && '\n' in text
    ensures Split(head + Escape(text) + tail, '\n')[0] == head + (['"'] + EscapeAll(before))
  {
    var after: string;
    before, after := EscapeBroken(text);
    var line := head + (['"'] + EscapeAll(before));
    SplitFirst(line, '\n', after + tail);
    assert head + Escape(text) + tail == line + ['\n'] + (after + tail);
  }

  lemma {:induction false} BrokenHeaderIsBad(section: string, sub: string, rest: string)
    requires ' ' !in section && '\n' !in section && '\n' in sub
    ensures ReadLine(Split(RenderLine(Header(section, Some(sub))) + ['\n'] + rest, '\n')[0]) == Bad
  {
    var name := section + [' '];
    var tail := [']'] + (['\n'] + rest);
    var before := FirstLineOfBroken(['['] + name, sub, tail);
    OpenHeaderIsBad(section, before);
    Bracketed(name, ['"'] + EscapeAll(before), []);
    Bracketed(name, Escape(sub), ['\n'] + rest);
  }

  lemma Bracketed(a: string, b: string, c: string)
    ensures ['['] + a + b == ['['] + (a + b)
    ensures ['['] + (a + b) + [']'] + c == ['['] + a + b + ([']'] + c)
    ensures forall d, e :: c == d + e ==> ['['] + (a + b) + [']'] + d + e == ['['] + a + b + ([']'] + c)
  {
  }

  lemma BrokenSettingIsBad(key: string, pad: nat, text: string, rest: string)
    requires Framed(Setting(key, pad, Quoted(text))) && '\n' in text
    ensures ReadLine(Split(RenderLine(Setting(key, pad, Quoted(text))) + ['\n'] + rest, '\n')[0]) == Bad
  {
    TrimPadding(key, pad);
    var name := key + Spaces(pad) + ['='];
    var head := name + [' '];
    assert '\n' !in head;
    var before := FirstLineOfBroken(head, text, ['\n'] + rest);
    OpenSettingIsBad(key, pad, before);
    Regroup(name, ['"'] + EscapeAll(before), []);
    Regroup(name, Escape(text), ['\n'] + rest);
    assert name + ([' '] + Escape(text)) + ['\n'] + rest == name + ([' '] + Escape(text)) + (['\n'] + rest);
  }

  lemma Regroup(a: string, b: string, c: string)
    ensures a + [' '] + b + c == a + ([' '] + b) + c
    ensures a + [' '] + b == a + ([' '] + b)
  {
  }

  lemma BrokenLineIsBad(l: Line, rest: string)
    requires Framed(l) && !OneLine(l)
    ensures ReadLine(Split(RenderLine(l) + ['\n'] + rest, '\n')[0]) == Bad
  {
    match l
    case Header(section, sub) => BrokenHeaderIsBad(section, sub.value, rest);
    case Setting(key, pad, value) => BrokenSettingIsBad(key, pad, value.text, rest);
  }

  lemma {:induction false} LaterEntries(item: Item, items: seq<Item>, section: string, sub: Option<string>)
    requires EntriesOf(items, section, sub).None? && !item.Section?
    ensures EntriesOf([item] + items, section, sub).None?
  {
    assert ([item] + items)[1..] == items;
  }

  lemma {:induction false} NextSection(items: seq<Item>, section: string, sub: Option<string>, s: string,
      u: Option<string>)
    requires EntriesOf(items, s, u).None?
    ensures EntriesOf([Section(s, u)] + items, section, sub).None?
  {
    assert ([Section(s, u)] + items)[1..] == items;
  }

  lemma {:induction false} BrokenDocument(lines: seq<Line>, section: string, sub: Option<string>)
    requires forall l :: l in lines ==> Framed(l)
    requires exists l :: l in lines && !OneLine(l)
    ensures EntriesOf(ReadTexts(Split(RenderLines(lines), '\n')), section, sub).None?
  {
    var l, rest := lines[0], RenderLines(lines[1..]);
    assert lines == [l] + lines[1..];
    if !OneLine(l) {
      BrokenLineIsBad(l, rest);
    } else {
      LineReadsBack(l);
      SplitFirst(RenderLine(l), '\n', rest);
      var texts := [RenderLine(l)] + Split(rest, '\n');
      assert texts[1..] == Split(rest, '\n');
      assert ReadTexts(texts) == [ItemOf(l)] + ReadTexts(Split(rest, '\n'));
      var items := ReadTexts(Split(rest, '\n'));
      if l.Header? {
        BrokenDocument(lines[1..], l.section, l.sub);
        NextSection(items, section, sub, l.section, l.sub);
      } else {
        BrokenDocument(lines[1..], section, sub);
        LaterEntries(ItemOf(l), items, section, sub);
      }
    }
  }

  /** A rendered document reads exactly when no text in it holds a line break; it then recovers every setting. */
  lemma DocumentReadsIffOneLine(lines: seq<Line>)
    requires forall l :: l in lines ==> Framed(l)
    ensures Read(RenderLines(lines))
         == if forall l :: l in lines ==> OneLine(l) then Some(Meaning(lines, "", None)) else None
  {
    if forall l :: l in lines ==> OneLine(l) {
      DocumentReadsBack(lines);
    } else {
      BrokenDocument(lines, "", None);
    }
  }
}
