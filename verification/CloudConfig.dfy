/** The GCE and vSphere cloud configs as ini documents, and reading them back. */
module CloudConfig {
  import opened Cluster
  import opened Sorting
  import opened Query
  import opened Ini

  // ---------------------------------------------------------------- blocks

  datatype Field = Field(key: string, pad: nat, value: Value)

  /** A section with its settings, and blank lines around it. */
  datatype Block = Block(before: nat, section: string, sub: Option<string>, fields: seq<Field>, after: nat)

  function Blanks(n: nat): seq<Line> {
    if n == 0 then [] else [Blank] + Blanks(n - 1)
  }

  function FieldLines(fields: seq<Field>): seq<Line> {
    if fields == [] then [] else [Setting(fields[0].key, fields[0].pad, fields[0].value)] + FieldLines(fields[1..])
  }

  function BlockLines(b: Block): seq<Line> {
    Blanks(b.before) + ([Header(b.section, b.sub)] + (FieldLines(b.fields) + Blanks(b.after)))
  }

  function LinesOf(blocks: seq<Block>): seq<Line> {
    if blocks == [] then [] else BlockLines(blocks[0]) + LinesOf(blocks[1..])
  }

  function FieldEntries(section: string, sub: Option<string>, fields: seq<Field>): seq<Entry> {
    if fields == [] then []
    else [Entry(section, sub, fields[0].key, fields[0].value.text)] + FieldEntries(section, sub, fields[1..])
  }

  function BlockEntries(blocks: seq<Block>): seq<Entry> {
    if blocks == [] then []
    else FieldEntries(blocks[0].section, blocks[0].sub, blocks[0].fields) + BlockEntries(blocks[1..])
  }

  lemma {:induction false} BlanksMeanNothing(n: nat, lines: seq<Line>, section: string, sub: Option<string>)
    ensures Meaning(Blanks(n) + lines, section, sub) == Meaning(lines, section, sub)
  {
    if n == 0 {
      assert Blanks(n) + lines == lines;
    } else {
      assert (Blanks(n) + lines)[1..] == Blanks(n - 1) + lines;
      BlanksMeanNothing(n - 1, lines, section, sub);
    }
  }

  lemma {:induction false} FieldsMean(fields: seq<Field>, lines: seq<Line>, section: string, sub: Option<string>)
    ensures Meaning(FieldLines(fields) + lines, section, sub)
         == FieldEntries(section, sub, fields) + Meaning(lines, section, sub)
  {
    if fields == [] {
      assert FieldLines(fields) + lines == lines;
    } else {
      assert (FieldLines(fields) + lines)[1..] == FieldLines(fields[1..]) + lines;
      FieldsMean(fields[1..], lines, section, sub);
    }
  }

  lemma {:induction false} BlocksMean(blocks: seq<Block>, trailing: nat, section: string, sub: Option<string>)
    ensures Meaning(LinesOf(blocks) + Blanks(trailing), section, sub) == BlockEntries(blocks)
  {
    if blocks == [] {
      assert LinesOf(blocks) + Blanks(trailing) == Blanks(trailing) + [];
      BlanksMeanNothing(trailing, [], section, sub);
    } else {
      var b, rest := blocks[0], LinesOf(blocks[1..]) + Blanks(trailing);
      var body := FieldLines(b.fields) + (Blanks(b.after) + rest);
      assert LinesOf(blocks) + Blanks(trailing) == Blanks(b.before) + ([Header(b.section, b.sub)] + body);
      BlanksMeanNothing(b.before, [Header(b.section, b.sub)] + body, section, sub);
      assert ([Header(b.section, b.sub)] + body)[1..] == body;
      FieldsMean(b.fields, Blanks(b.after) + rest, b.section, b.sub);
      BlanksMeanNothing(b.after, rest, b.section, b.sub);
      BlocksMean(blocks[1..], trailing, b.section, b.sub);
    }
  }

  predicate FramedBlock(b: Block) {
    Framed(Header(b.section, b.sub)) && forall f :: f in b.fields ==> Framed(Setting(f.key, f.pad, f.value))
  }

  /** No text in the block holds a line break. */
  predicate OneLineBlock(b: Block) {
    OneLine(Header(b.section, b.sub)) && forall f :: f in b.fields ==> '\n' !in f.value.text
  }

  lemma {:induction false} BlankLines(n: nat)
    ensures forall l :: l in Blanks(n) ==> l == Blank
  {
    if n > 0 { BlankLines(n - 1); }
  }

  lemma {:induction false} LinesOfFields(fields: seq<Field>)
    ensures forall l :: l in FieldLines(fields) <==> exists f :: f in fields && l == Setting(f.key, f.pad, f.value)
  {
    if fields != [] {
      assert fields == [fields[0]] + fields[1..];
      LinesOfFields(fields[1..]);
    }
  }

  lemma {:induction false} LinesOfBlock(b: Block)
    ensures FramedBlock(b) ==> forall l :: l in BlockLines(b) ==> Framed(l)
    ensures OneLineBlock(b) <==> forall l :: l in BlockLines(b) ==> OneLine(l)
  {
    BlankLines(b.before);
    BlankLines(b.after);
    LinesOfFields(b.fields);
    assert Header(b.section, b.sub) in BlockLines(b);
    forall f | f in b.fields
      ensures Setting(f.key, f.pad, f.value) in BlockLines(b)
    {
      assert Setting(f.key, f.pad, f.value) in FieldLines(b.fields);
    }
  }

  lemma {:induction false} LinesOfBlocks(blocks: seq<Block>)
    ensures (forall b :: b in blocks ==> FramedBlock(b)) ==> forall l :: l in LinesOf(blocks) ==> Framed(l)
    ensures (forall b :: b in blocks ==> OneLineBlock(b)) <==> (forall l :: l in LinesOf(blocks) ==> OneLine(l))
  {
    if blocks != [] {
      assert blocks == [blocks[0]] + blocks[1..];
      LinesOfBlock(blocks[0]);
      LinesOfBlocks(blocks[1..]);
    }
  }

  /** Blocks, and blank lines after them, as text. */
  function TextOf(blocks: seq<Block>, trailing: nat): string {
    RenderLines(LinesOf(blocks) + Blanks(trailing))
  }

  /** Rendered blocks read exactly when no text in them holds a line break; that yields their settings. */
  lemma {:induction false} BlocksReadBack(blocks: seq<Block>, trailing: nat)
    requires forall b :: b in blocks ==> FramedBlock(b)
    ensures Read(TextOf(blocks, trailing))
         == if forall b :: b in blocks ==> OneLineBlock(b) then Some(BlockEntries(blocks)) else None
  {
    LinesOfBlocks(blocks);
    BlankLines(trailing);
    BlocksMean(blocks, trailing, "", None);
    var lines := LinesOf(blocks) + Blanks(trailing);
    DocumentReadsIffOneLine(lines);
    assert (forall l :: l in lines ==> OneLine(l)) <==> (forall l :: l in LinesOf(blocks) ==> OneLine(l)) by {
      assert forall l :: l in LinesOf(blocks) ==> l in lines;
    }
  }

  // ---------------------------------------------------------------- looking settings up

  /** All values of a setting, in order. */
  function Texts(es: seq<Entry>, section: string, sub: Option<string>, key: string): seq<string> {
    if es == [] then []
    else
      var here := if es[0].section == section && es[0].sub == sub && es[0].key == key then [es[0].text] else [];
      here + Texts(es[1..], section, sub, key)
  }

  /** A scalar setting; empty if it is absent. */
  function Scalar(es: seq<Entry>, section: string, sub: Option<string>, key: string): string {
    var ts := Texts(es, section, sub, key);
    if ts == [] then "" else ts[|ts| - 1]
  }

  /** The setting under the `i`th of some keys. */
  function At(es: seq<Entry>, section: string, sub: Option<string>, keys: seq<string>, i: nat): string {
    if i < |keys| then Scalar(es, section, sub, keys[i]) else ""
  }

  lemma {:induction false} TextsOfSum(a: seq<Entry>, b: seq<Entry>, section: string, sub: Option<string>, key: string)
    ensures Texts(a + b, section, sub, key) == Texts(a, section, sub, key) + Texts(b, section, sub, key)
  {
    if a == [] {
      assert a + b == b;
    } else {
      assert (a + b)[1..] == a[1..] + b;
      TextsOfSum(a[1..], b, section, sub, key);
    }
  }

  function FieldTexts(fields: seq<Field>, key: string): seq<string> {
    if fields == [] then []
    else (if fields[0].key == key then [fields[0].value.text] else []) + FieldTexts(fields[1..], key)
  }

  lemma {:induction false} TextsOfFields(fields: seq<Field>, section: string, sub: Option<string>, s: string,
      u: Option<string>, key: string)
    ensures Texts(FieldEntries(section, sub, fields), s, u, key)
         == if section == s && sub == u then FieldTexts(fields, key) else []
  {
    if fields != [] {
      TextsOfFields(fields[1..], section, sub, s, u, key);
      assert FieldEntries(section, sub, fields)[1..] == FieldEntries(section, sub, fields[1..]);
    }
  }

  /** No two blocks share section and subsection. */
  ghost predicate Apart(blocks: seq<Block>) {
    forall i, j :: 0 <= i < j < |blocks| ==> blocks[i].section != blocks[j].section || blocks[i].sub != blocks[j].sub
  }

  lemma {:induction false} TextsElsewhere(blocks: seq<Block>, section: string, sub: Option<string>, key: string)
    requires forall b :: b in blocks ==> b.section != section || b.sub != sub
    ensures Texts(BlockEntries(blocks), section, sub, key) == []
  {
    if blocks != [] {
      var b := blocks[0];
      assert b in blocks && forall x :: x in blocks[1..] ==> x in blocks;
      TextsElsewhere(blocks[1..], section, sub, key);
      TextsOfFields(b.fields, b.section, b.sub, section, sub, key);
      TextsOfSum(FieldEntries(b.section, b.sub, b.fields), BlockEntries(blocks[1..]), section, sub, key);
    }
  }

  /** The settings of a block are looked up among its own fields. */
  lemma {:induction false} TextsOfBlock(blocks: seq<Block>, i: nat, key: string)
    requires Apart(blocks) && i < |blocks|
    ensures Texts(BlockEntries(blocks), blocks[i].section, blocks[i].sub, key) == FieldTexts(blocks[i].fields, key)
  {
    var b, target := blocks[0], blocks[i];
    TextsOfFields(b.fields, b.section, b.sub, target.section, target.sub, key);
    TextsOfSum(FieldEntries(b.section, b.sub, b.fields), BlockEntries(blocks[1..]), target.section, target.sub, key);
    if i == 0 {
      TextsElsewhere(blocks[1..], target.section, target.sub, key);
      assert FieldTexts(b.fields, key) + [] == FieldTexts(b.fields, key);
    } else {
      TextsOfBlock(blocks[1..], i - 1, key);
    }
  }

  function SubsOf(es: seq<Entry>, section: string): set<string> {
    set e | e in es && e.section == section && e.sub.Some? :: e.sub.value
  }

  lemma {:induction false} EntriesFromBlocks(blocks: seq<Block>)
    ensures forall e :: e in BlockEntries(blocks) ==>
      exists b :: b in blocks && b.section == e.section && b.sub == e.sub
    ensures forall b :: b in blocks && b.fields != [] ==>
      exists e :: e in BlockEntries(blocks) && e.section == b.section && e.sub == b.sub
  {
    if blocks != [] {
      var b := blocks[0];
      EntriesFromBlocks(blocks[1..]);
      assert blocks == [b] + blocks[1..];
      FieldEntriesPlace(b.section, b.sub, b.fields);
      forall e | e in BlockEntries(blocks)
        ensures exists x :: x in blocks && x.section == e.section && x.sub == e.sub
      {
        if e in FieldEntries(b.section, b.sub, b.fields) { assert b in blocks; }
      }
      if b.fields != [] { assert FieldEntries(b.section, b.sub, b.fields)[0] in BlockEntries(blocks); }
    }
  }

  lemma {:induction false} FieldEntriesPlace(section: string, sub: Option<string>, fields: seq<Field>)
    ensures forall e :: e in FieldEntries(section, sub, fields) ==> e.section == section && e.sub == sub
  {
    if fields != [] { FieldEntriesPlace(section, sub, fields[1..]); }
  }

  lemma {:induction false} FieldMissing(fields: seq<Field>, key: string)
    requires forall f :: f in fields ==> f.key != key
    ensures FieldTexts(fields, key) == []
  {
    if fields != [] {
      assert fields == [fields[0]] + fields[1..];
      FieldMissing(fields[1..], key);
    }
  }

  lemma {:induction false} FieldOnce(fields: seq<Field>, i: nat)
    requires i < |fields|
    requires forall j :: 0 <= j < |fields| && j != i ==> fields[j].key != fields[i].key
    ensures FieldTexts(fields, fields[i].key) == [fields[i].value.text]
  {
    if i == 0 {
      FieldMissing(fields[1..], fields[0].key);
    } else {
      FieldOnce(fields[1..], i - 1);
    }
  }

  // ---------------------------------------------------------------- tables of settings

  /** Settings in a fixed order, their keys padded to a common width. */
  function Table(keys: seq<string>, width: nat, values: seq<Value>): (r: seq<Field>)
    requires |keys| == |values|
    ensures |r| == |keys|
    ensures forall i :: 0 <= i < |r| ==> r[i].key == keys[i] && r[i].value == values[i]
  {
    if keys == [] then []
    else
      [Field(keys[0], Pad(keys[0], width), values[0])] + Table(keys[1..], width, values[1..])
  }

  function Pad(key: string, width: nat): nat {
    if |key| < width then width - |key| else 1
  }

  predicate GoodKey(key: string) {
    key != [] && key[0] != '[' && key[|key| - 1] != ' ' && '=' !in key && '\n' !in key
  }

  predicate GoodValue(v: Value) {
    v.Raw? ==> '\n' !in v.text && (v.text != [] ==> v.text[0] != ' ' && v.text[0] != '"')
  }

  /** Keys a reader can tell apart, none of them in `others`. */
  predicate GoodKeys(keys: seq<string>, others: set<string>) {
    && (forall i :: 0 <= i < |keys| ==> GoodKey(keys[i]) && keys[i] !in others)
    && forall i, j :: 0 <= i < j < |keys| ==> keys[i] != keys[j]
  }

  predicate GoodRest(rest: seq<Field>, others: set<string>) {
    forall f :: f in rest ==> GoodKey(f.key) && GoodValue(f.value) && f.key in others
  }

  predicate PlainValues(values: seq<Value>) {
    forall i :: 0 <= i < |values| ==> '\n' !in values[i].text
  }

  predicate PlainFields(fields: seq<Field>) {
    forall f :: f in fields ==> '\n' !in f.value.text
  }

  lemma {:induction false} FieldTextsOfSum(a: seq<Field>, b: seq<Field>, key: string)
    ensures FieldTexts(a + b, key) == FieldTexts(a, key) + FieldTexts(b, key)
  {
    if a == [] {
      assert a + b == b;
    } else {
      assert (a + b)[1..] == a[1..] + b;
      FieldTextsOfSum(a[1..], b, key);
    }
  }

  /** Every setting of a table is read under its own key, the others under theirs. */
  lemma {:induction false} TableReads(keys: seq<string>, width: nat, values: seq<Value>, rest: seq<Field>,
      others: set<string>)
    requires |keys| == |values| && GoodKeys(keys, others) && GoodRest(rest, others)
    ensures forall i :: 0 <= i < |keys| ==> FieldTexts(Table(keys, width, values) + rest, keys[i]) == [values[i].text]
    ensures forall key :: key in others ==> FieldTexts(Table(keys, width, values) + rest, key) == FieldTexts(rest, key)
  {
    var table := Table(keys, width, values);
    forall i | 0 <= i < |keys|
      ensures FieldTexts(table + rest, keys[i]) == [values[i].text]
    {
      FieldTextsOfSum(table, rest, keys[i]);
      FieldOnce(table, i);
      FieldMissing(rest, keys[i]);
    }
    forall key | key in others
      ensures FieldTexts(table + rest, key) == FieldTexts(rest, key)
    {
      FieldTextsOfSum(table, rest, key);
      FieldMissing(table, key);
    }
  }

  lemma {:induction false} TableFramed(b: Block, keys: seq<string>, width: nat, values: seq<Value>, rest: seq<Field>,
      others: set<string>)
    requires |keys| == |values| && GoodKeys(keys, others) && GoodRest(rest, others)
    requires b.fields == Table(keys, width, values) + rest
    requires Framed(Header(b.section, b.sub)) && forall i :: 0 <= i < |values| ==> GoodValue(values[i])
    ensures FramedBlock(b)
    ensures OneLineBlock(b) <==> OneLine(Header(b.section, b.sub)) && PlainValues(values) && PlainFields(rest)
  {
    var table := Table(keys, width, values);
    forall f | f in b.fields
      ensures Framed(Setting(f.key, f.pad, f.value))
    {
      assert f in table || f in rest;
    }
    assert forall f :: f in rest ==> f in b.fields;
    forall i | 0 <= i < |values|
      ensures b.fields[i] in b.fields && b.fields[i].value == values[i]
    {
      assert b.fields[i] == table[i];
    }
  }

  function Bool(b: bool): Value {
    Raw(if b then "true" else "false")
  }

  lemma {:induction false} BoolReads(b: bool)
    ensures (Bool(b).text == "true") == b && GoodValue(Bool(b)) && '\n' !in Bool(b).text
  {
  }

  // ---------------------------------------------------------------- GCE

  datatype Gce = Gce(
    projectID: string, localZone: string, networkName: string, subnetworkName: string,
    multiZone: bool, regional: bool, nodeTags: seq<string>)

  const GCE_KEYS: seq<string> :=
    ["project-id", "local-zone", "network-name", "subnetwork-name", "multizone", "regional"]

  function GceValues(g: Gce): seq<Value> {
    [Quoted(g.projectID), Quoted(g.localZone), Quoted(g.networkName), Quoted(g.subnetworkName),
     Bool(g.multiZone), Bool(g.regional)]
  }

  const TAG_KEY := "node-tags"

  function TagFields(key: string, tags: seq<string>): seq<Field> {
    if tags == [] then [] else [Field(key, 1, Quoted(tags[0]))] + TagFields(key, tags[1..])
  }

  function GceBlock(g: Gce): Block {
    Block(0, "global", None, Table(GCE_KEYS, 0, GceValues(g)) + TagFields(TAG_KEY, g.nodeTags), 0)
  }

  function GceText(g: Gce): string {
    TextOf([GceBlock(g)], 0)
  }

  /** A GCE config from the settings of an ini document. */
  function GceOf(es: seq<Entry>): Gce {
    Gce(At(es, "global", None, GCE_KEYS, 0), At(es, "global", None, GCE_KEYS, 1),
        At(es, "global", None, GCE_KEYS, 2), At(es, "global", None, GCE_KEYS, 3),
        At(es, "global", None, GCE_KEYS, 4) == "true", At(es, "global", None, GCE_KEYS, 5) == "true",
        Texts(es, "global", None, TAG_KEY))
  }

  predicate OneLineGce(g: Gce) {
    && '\n' !in g.projectID && '\n' !in g.localZone && '\n' !in g.networkName && '\n' !in g.subnetworkName
    && forall t :: t in g.nodeTags ==> '\n' !in t
  }

  lemma {:induction false} TagsReadBack(key: string, tags: seq<string>)
    requires GoodKey(key)
    ensures FieldTexts(TagFields(key, tags), key) == tags
    ensures GoodRest(TagFields(key, tags), {key})
    ensures PlainFields(TagFields(key, tags)) <==> forall t :: t in tags ==> '\n' !in t
  {
    if tags != [] {
      var f, rest := Field(key, 1, Quoted(tags[0])), TagFields(key, tags[1..]);
      TagsReadBack(key, tags[1..]);
      assert tags == [tags[0]] + tags[1..];
      assert forall x :: x in [f] + rest <==> x == f || x in rest;
    }
  }

  lemma {:induction false} GceKeysGood()
    ensures GoodKeys(GCE_KEYS, {TAG_KEY}) && GoodKey(TAG_KEY)
  {
    assert forall i :: 0 <= i < |GCE_KEYS| ==> GoodKey(GCE_KEYS[i]);
  }

  lemma {:induction false} GceValuesGood(g: Gce)
    ensures forall i :: 0 <= i < 6 ==> GoodValue(GceValues(g)[i])
    ensures PlainValues(GceValues(g))
       <==> '\n' !in g.projectID && '\n' !in g.localZone && '\n' !in g.networkName && '\n' !in g.subnetworkName
  {
    BoolReads(g.multiZone);
    BoolReads(g.regional);
    var v := GceValues(g);
    assert PlainValues(v) <==> '\n' !in v[0].text && '\n' !in v[1].text && '\n' !in v[2].text && '\n' !in v[3].text;
  }

  lemma {:induction false} GceFieldsBack(g: Gce, es: seq<Entry>)
    requires es == BlockEntries([GceBlock(g)])
    ensures GceOf(es) == g
  {
    var b, values, tags := GceBlock(g), GceValues(g), TagFields(TAG_KEY, g.nodeTags);
    GceKeysGood();
    TagsReadBack(TAG_KEY, g.nodeTags);
    TableReads(GCE_KEYS, 0, values, tags, {TAG_KEY});
    forall i | 0 <= i < 6
      ensures Scalar(es, "global", None, GCE_KEYS[i]) == values[i].text
    {
      TextsOfBlock([b], 0, GCE_KEYS[i]);
    }
    TextsOfBlock([b], 0, TAG_KEY);
    BoolReads(g.multiZone);
    BoolReads(g.regional);
  }

  /** A rendered GCE config reads exactly when no value has a line break, and then gives every field back, all node
      tags in order. */
  lemma {:induction false} GceReadsBack(g: Gce)
    ensures var r := Read(GceText(g));
      if OneLineGce(g) then r.Some? && GceOf(r.value) == g else r.None?
  {
    var b, values, tags := GceBlock(g), GceValues(g), TagFields(TAG_KEY, g.nodeTags);
    GceKeysGood();
    GceValuesGood(g);
    TagsReadBack(TAG_KEY, g.nodeTags);
    TableFramed(b, GCE_KEYS, 0, values, tags, {TAG_KEY});
    BlocksReadBack([b], 0);
    GceFieldsBack(g, BlockEntries([b]));
    assert b in [b];
  }

  // ---------------------------------------------------------------- templates

  /** One line of a template. */
  function Assignment(key: string, pad: nat, value: string): string {
    key + Spaces(pad) + "= " + value + "\n"
  }

  function Assignments(fields: seq<Field>): string {
    if fields == [] then ""
    else Assignment(fields[0].key, fields[0].pad, RenderValue(fields[0].value)) + Assignments(fields[1..])
  }

  lemma {:induction false} AssignmentIsSetting(f: Field, rest: string)
    ensures RenderLine(Setting(f.key, f.pad, f.value)) + ['\n'] + rest
         == Assignment(f.key, f.pad, RenderValue(f.value)) + rest
  {
    var text := RenderValue(f.value);
    assert "= " == ['=', ' '] && "\n" == ['\n'];
    assert ['='] + ([' '] + text) == ['=', ' '] + text;
  }

  lemma Grouped(a: string, b: string, c: string, d: string, e: string)
    ensures a + (b + (c + d)) + e == a + (b + (c + (d + e)))
    ensures c + d + e == c + (d + e)
  {
  }

  lemma LinesGrouped(a: seq<Line>, b: seq<Line>, c: seq<Line>)
    ensures a + b + c == a + (b + c)
  {
  }

  lemma {:induction false} FirstLine(l: Line, rest: seq<Line>)
    ensures RenderLines([l] + rest) == RenderLine(l) + ['\n'] + RenderLines(rest)
  {
    assert ([l] + rest)[1..] == rest;
  }

  lemma {:induction false} FieldsAsText(fields: seq<Field>, more: seq<Line>)
    ensures RenderLines(FieldLines(fields) + more) == Assignments(fields) + RenderLines(more)
  {
    if fields == [] {
      assert FieldLines(fields) + more == more;
    } else {
      var f, rest := fields[0], FieldLines(fields[1..]);
      LinesGrouped([Setting(f.key, f.pad, f.value)], rest, more);
      FirstLine(Setting(f.key, f.pad, f.value), rest + more);
      FieldsAsText(fields[1..], more);
      AssignmentIsSetting(f, RenderLines(rest + more));
      Grouped("", "", Assignment(f.key, f.pad, RenderValue(f.value)), Assignments(fields[1..]), RenderLines(more));
    }
  }

  /** The text of the template, line by line. */
  function GceTemplate(g: Gce): string {
    "[global]\n"
    + (Assignment("project-id", 1, Escape(g.projectID))
    + (Assignment("local-zone", 1, Escape(g.localZone))
    + (Assignment("network-name", 1, Escape(g.networkName))
    + (Assignment("subnetwork-name", 1, Escape(g.subnetworkName))
    + (Assignment("multizone", 1, if g.multiZone then "true" else "false")
    + (Assignment("regional", 1, if g.regional then "true" else "false")
    + Assignments(TagFields("node-tags", g.nodeTags))))))))
  }

  lemma {:induction false} AssignmentsOfSum(a: seq<Field>, b: seq<Field>)
    ensures Assignments(a + b) == Assignments(a) + Assignments(b)
  {
    if a == [] {
      assert a + b == b;
    } else {
      assert (a + b)[1..] == a[1..] + b;
      AssignmentsOfSum(a[1..], b);
    }
  }

  lemma {:induction false} RowText(keys: seq<string>, width: nat, values: seq<Value>, more: string)
    requires |keys| == |values| > 0
    ensures Assignments(Table(keys, width, values)) + more
         == Assignment(keys[0], Pad(keys[0], width), RenderValue(values[0]))
          + (Assignments(Table(keys[1..], width, values[1..])) + more)
  {
    var table := Table(keys, width, values);
    assert table[1..] == Table(keys[1..], width, values[1..]);
  }

  lemma {:induction false} SixRows(keys: seq<string>, values: seq<Value>, more: string)
    requires |keys| == |values| == 6
    ensures Assignments(Table(keys, 0, values)) + more
         == Assignment(keys[0], 1, RenderValue(values[0])) + (Assignment(keys[1], 1, RenderValue(values[1]))
          + (Assignment(keys[2], 1, RenderValue(values[2])) + (Assignment(keys[3], 1, RenderValue(values[3]))
          + (Assignment(keys[4], 1, RenderValue(values[4])) + (Assignment(keys[5], 1,
              RenderValue(values[5])) + more)))))
  {
    RowText(keys, 0, values, more);
    RowText(keys[1..], 0, values[1..], more);
    RowText(keys[2..], 0, values[2..], more);
    RowText(keys[3..], 0, values[3..], more);
    RowText(keys[4..], 0, values[4..], more);
    RowText(keys[5..], 0, values[5..], more);
    assert Assignments(Table(keys[6..], 0, values[6..])) + more == more;
  }

  lemma {:induction false} OneSectionText(section: string, fields: seq<Field>)
    ensures TextOf([Block(0, section, None, fields, 0)], 0) == "[" + section + "]\n" + Assignments(fields)
  {
    var lines := [Header(section, None)] + FieldLines(fields);
    assert LinesOf([Block(0, section, None, fields, 0)]) + Blanks(0) == lines;
    FieldsAsText(fields, []);
    assert FieldLines(fields) + [] == FieldLines(fields) && lines[1..] == FieldLines(fields);
    assert "[" + section + "]\n" == ['['] + section + [']'] + ['\n'];
  }

  /** Rendering the block gives the text of the template. */
  lemma {:induction false} GceTextIsTemplate(g: Gce)
    ensures GceText(g) == GceTemplate(g)
  {
    var tags := TagFields(TAG_KEY, g.nodeTags);
    OneSectionText("global", GceBlock(g).fields);
    AssignmentsOfSum(Table(GCE_KEYS, 0, GceValues(g)), tags);
    SixRows(GCE_KEYS, GceValues(g), Assignments(tags));
    assert "[" + "global" + "]\n" == "[global]\n";
  }

  // ---------------------------------------------------------------- vSphere

  datatype VCenter = VCenter(user: string, password: string, port: string, datacenters: string, ipFamily: string)

  datatype Vsphere = Vsphere(
    user: string, password: string, port: string, insecure: bool, ipFamily: string,
    scsiController: string,
    server: string, datacenter: string, folder: string, datastore: string,
    centers: map<string, VCenter>)

  /** Names of the sections and settings, the latter in the order they are written. */
  datatype Format = Format(
    global: string, disk: string, workspace: string, center: string,
    globalKeys: seq<string>, diskKeys: seq<string>, workspaceKeys: seq<string>, centerKeys: seq<string>,
    familyKey: string)

  function VsphereFormat(): Format {
    Format("Global", "Disk", "Workspace", "VirtualCenter",
      ["user", "password", "port", "insecure-flag"],
      ["scsicontrollertype"],
      ["server", "datacenter", "folder", "default-datastore"],
      ["user", "password", "port", "datacenters"],
      "ip-family")
  }

  predicate GoodName(section: string) {
    ' ' !in section && '\n' !in section
  }

  predicate GoodSections(k: Format) {
    && GoodName(k.global) && GoodName(k.disk) && GoodName(k.workspace) && GoodName(k.center)
    && k.global != k.disk && k.global != k.workspace && k.disk != k.workspace
  }

  /** A format whose names a reader can tell apart. */
  predicate GoodFormat(k: Format) {
    && GoodSections(k)
    && |k.globalKeys| == 4 && |k.diskKeys| == 1 && |k.workspaceKeys| == 4 && |k.centerKeys| == 4
    && GoodKeys(k.globalKeys, {k.familyKey}) && GoodKeys(k.centerKeys, {k.familyKey}) && GoodKey(k.familyKey)
    && GoodKeys(k.diskKeys, {}) && GoodKeys(k.workspaceKeys, {})
  }

  function GlobalValues(v: Vsphere): seq<Value> {
    [Quoted(v.user), Quoted(v.password), Quoted(v.port), Bool(v.insecure)]
  }

  function WorkspaceValues(v: Vsphere): seq<Value> {
    [Quoted(v.server), Quoted(v.datacenter), Quoted(v.folder), Quoted(v.datastore)]
  }

  /** The port of a subsection is not quoted. */
  function CenterValues(c: VCenter): seq<Value> {
    [Quoted(c.user), Quoted(c.password), Raw(c.port), Quoted(c.datacenters)]
  }

  /** The address family is left out when it is empty. */
  function FamilyFields(k: Format, pad: nat, family: string): seq<Field> {
    if family == "" then [] else [Field(k.familyKey, pad, Quoted(family))]
  }

  function CenterBlock(k: Format, name: string, c: VCenter): Block
    requires GoodFormat(k)
  {
    Block(1, k.center, Some(name), Table(k.centerKeys, 0, CenterValues(c)) + FamilyFields(k, 1, c.ipFamily), 0)
  }

  function CenterBlocks(k: Format, names: seq<string>, centers: map<string, VCenter>): (r: seq<Block>)
    requires GoodFormat(k)
    requires forall n :: n in names ==> n in centers
    ensures |r| == |names| && forall i :: 0 <= i < |r| ==> r[i] == CenterBlock(k, names[i], centers[names[i]])
  {
    if names == [] then []
    else
      assert forall n :: n in names[1..] ==> n in names;
      [CenterBlock(k, names[0], centers[names[0]])] + CenterBlocks(k, names[1..], centers)
  }

  function GlobalBlock(k: Format, v: Vsphere): Block
    requires GoodFormat(k)
  {
    Block(0, k.global, None, Table(k.globalKeys, 18, GlobalValues(v)) + FamilyFields(k, 9, v.ipFamily), 0)
  }

  function DiskBlock(k: Format, v: Vsphere): Block
    requires GoodFormat(k)
  {
    Block(1, k.disk, None, Table(k.diskKeys, 18, [Quoted(v.scsiController)]) + [], 0)
  }

  function WorkspaceBlock(k: Format, v: Vsphere): Block
    requires GoodFormat(k)
  {
    Block(1, k.workspace, None, Table(k.workspaceKeys, 18, WorkspaceValues(v)) + [], 1)
  }

  /** Subsections follow in the order of their names, which is how templates range over a map. */
  ghost function VsphereBlocks(k: Format, v: Vsphere): seq<Block>
    requires GoodFormat(k)
  {
    [GlobalBlock(k, v), DiskBlock(k, v), WorkspaceBlock(k, v)] + CenterBlocks(k, Ordered(v.centers.Keys), v.centers)
  }

  function CenterOf(k: Format, es: seq<Entry>, name: string): VCenter {
    var keys, sub := k.centerKeys, Some(name);
    VCenter(At(es, k.center, sub, keys, 0), At(es, k.center, sub, keys, 1), At(es, k.center, sub, keys, 2),
            At(es, k.center, sub, keys, 3), Scalar(es, k.center, sub, k.familyKey))
  }

  function Centers(k: Format, es: seq<Entry>): map<string, VCenter> {
    map n | n in SubsOf(es, k.center) :: CenterOf(k, es, n)
  }

  /** A vSphere config from the settings of an ini document. */
  function VsphereOf(k: Format, es: seq<Entry>): Vsphere {
    var g, w := k.globalKeys, k.workspaceKeys;
    Vsphere(At(es, k.global, None, g, 0), At(es, k.global, None, g, 1), At(es, k.global, None, g, 2),
            At(es, k.global, None, g, 3) == "true", Scalar(es, k.global, None, k.familyKey),
            At(es, k.disk, None, k.diskKeys, 0),
            At(es, k.workspace, None, w, 0), At(es, k.workspace, None, w, 1),
            At(es, k.workspace, None, w, 2), At(es, k.workspace, None, w, 3),
            Centers(k, es))
  }

  /** The port of a subsection is written without quotes: no line break, no leading space or quote. */
  predicate GoodPort(port: string) {
    GoodValue(Raw(port))
  }

  /** In particular a numeric port. */
  lemma DigitsAreGood(port: string)
    requires forall c :: c in port ==> '0' <= c <= '9'
    ensures GoodPort(port)
  {
    assert port != [] ==> port[0] in port;
  }

  predicate OneLineCenter(name: string, c: VCenter) {
    && '\n' !in name && '\n' !in c.user && '\n' !in c.password && '\n' !in c.port && '\n' !in c.datacenters
    && '\n' !in c.ipFamily
  }

  predicate OneLineVsphere(v: Vsphere) {
    && '\n' !in v.user && '\n' !in v.password && '\n' !in v.port && '\n' !in v.ipFamily && '\n' !in v.scsiController
    && '\n' !in v.server && '\n' !in v.datacenter && '\n' !in v.folder && '\n' !in v.datastore
    && forall n :: n in v.centers ==> OneLineCenter(n, v.centers[n])
  }

  lemma {:induction false} FamilyReads(k: Format, pad: nat, family: string)
    requires GoodFormat(k)
    ensures GoodRest(FamilyFields(k, pad, family), {k.familyKey})
    ensures PlainFields(FamilyFields(k, pad, family)) <==> '\n' !in family
    ensures FieldTexts(FamilyFields(k, pad, family), k.familyKey) == if family == "" then [] else [family]
  {
    var fields := FamilyFields(k, pad, family);
    if family != "" { assert fields[0] in fields && FieldTexts(fields[1..], k.familyKey) == []; }
  }

  lemma {:induction false} CenterFramed(k: Format, name: string, c: VCenter)
    requires GoodFormat(k)
    requires GoodPort(c.port)
    ensures FramedBlock(CenterBlock(k, name, c))
    ensures OneLineBlock(CenterBlock(k, name, c)) <==> OneLineCenter(name, c)
  {
    FamilyReads(k, 1, c.ipFamily);
    var values := CenterValues(c);
    assert GoodValue(values[2]);
    assert PlainValues(values)
      <==> '\n' !in values[0].text && '\n' !in values[1].text && '\n' !in values[2].text && '\n' !in values[3].text;
    TableFramed(CenterBlock(k, name, c), k.centerKeys, 0, values, FamilyFields(k, 1, c.ipFamily), {k.familyKey});
  }

  lemma {:induction false} GlobalFramed(k: Format, v: Vsphere)
    requires GoodFormat(k)
    ensures FramedBlock(GlobalBlock(k, v))
    ensures OneLineBlock(GlobalBlock(k, v))
       <==> '\n' !in v.user && '\n' !in v.password && '\n' !in v.port && '\n' !in v.ipFamily
  {
    FamilyReads(k, 9, v.ipFamily);
    BoolReads(v.insecure);
    var values := GlobalValues(v);
    assert PlainValues(values) <==> '\n' !in values[0].text && '\n' !in values[1].text && '\n' !in values[2].text;
    TableFramed(GlobalBlock(k, v), k.globalKeys, 18, values, FamilyFields(k, 9, v.ipFamily), {k.familyKey});
  }

  lemma {:induction false} DiskFramed(k: Format, v: Vsphere)
    requires GoodFormat(k)
    ensures FramedBlock(DiskBlock(k, v))
    ensures OneLineBlock(DiskBlock(k, v)) <==> '\n' !in v.scsiController
  {
    var values := [Quoted(v.scsiController)];
    assert PlainValues(values) <==> '\n' !in values[0].text;
    TableFramed(DiskBlock(k, v), k.diskKeys, 18, values, [], {});
  }

  lemma {:induction false} WorkspaceFramed(k: Format, v: Vsphere)
    requires GoodFormat(k)
    ensures FramedBlock(WorkspaceBlock(k, v))
    ensures OneLineBlock(WorkspaceBlock(k, v))
       <==> '\n' !in v.server && '\n' !in v.datacenter && '\n' !in v.folder && '\n' !in v.datastore
  {
    var values := WorkspaceValues(v);
    assert PlainValues(values)
      <==> '\n' !in values[0].text && '\n' !in values[1].text && '\n' !in values[2].text && '\n' !in values[3].text;
    TableFramed(WorkspaceBlock(k, v), k.workspaceKeys, 18, values, [], {});
  }

  lemma {:induction false} CentersFramed(k: Format, names: seq<string>, centers: map<string, VCenter>)
    requires GoodFormat(k)
    requires forall n :: n in names ==> n in centers && GoodPort(centers[n].port)
    ensures forall b :: b in CenterBlocks(k, names, centers) ==> FramedBlock(b)
    ensures (forall b :: b in CenterBlocks(k, names, centers) ==> OneLineBlock(b))
       <==> forall n :: n in names ==> OneLineCenter(n, centers[n])
  {
    var blocks := CenterBlocks(k, names, centers);
    forall i | 0 <= i < |names|
      ensures FramedBlock(blocks[i])
      ensures blocks[i] in blocks && names[i] in names
          && (OneLineBlock(blocks[i]) <==> OneLineCenter(names[i], centers[names[i]]))
    {
      CenterFramed(k, names[i], centers[names[i]]);
    }
  }

  lemma {:induction false} ThreeMore(a: Block, b: Block, c: Block, rest: seq<Block>)
    ensures forall x :: x in [a, b, c] + rest <==> x == a || x == b || x == c || x in rest
  {
  }

  lemma {:induction false} VsphereFramed(k: Format, v: Vsphere)
    requires GoodFormat(k)
    requires forall n :: n in v.centers ==> GoodPort(v.centers[n].port)
    ensures forall b :: b in VsphereBlocks(k, v) ==> FramedBlock(b)
    ensures (forall b :: b in VsphereBlocks(k, v) ==> OneLineBlock(b)) <==> OneLineVsphere(v)
  {
    GlobalFramed(k, v);
    DiskFramed(k, v);
    WorkspaceFramed(k, v);
    var names := Ordered(v.centers.Keys);
    CentersFramed(k, names, v.centers);
    ThreeMore(GlobalBlock(k, v), DiskBlock(k, v), WorkspaceBlock(k, v), CenterBlocks(k, names, v.centers));
    assert forall n :: n in names <==> n in v.centers;
  }

  lemma {:induction false} VsphereApart(k: Format, v: Vsphere)
    requires GoodFormat(k)
    ensures Apart(VsphereBlocks(k, v))
  {
    var names, blocks := Ordered(v.centers.Keys), VsphereBlocks(k, v);
    forall i, j | 0 <= i < j < |blocks|
      ensures blocks[i].section != blocks[j].section || blocks[i].sub != blocks[j].sub
    {
      if i >= 3 {
        assert Less(names[i - 3], names[j - 3]);
        LessTotal(names[i - 3], names[i - 3]);
      }
    }
  }

  /** All settings of a table block are found by section and key. */
  lemma {:induction false} BlockReads(blocks: seq<Block>, k: nat, keys: seq<string>, width: nat, values: seq<Value>,
      rest: seq<Field>, others: set<string>)
    requires Apart(blocks) && k < |blocks|
    requires |keys| == |values| && GoodKeys(keys, others) && GoodRest(rest, others)
    requires blocks[k].fields == Table(keys, width, values) + rest
    ensures var es := BlockEntries(blocks);
      && (forall i :: 0 <= i < |keys| ==> At(es, blocks[k].section, blocks[k].sub, keys, i) == values[i].text)
      && (forall key :: key in others ==> Texts(es, blocks[k].section, blocks[k].sub, key) == FieldTexts(rest, key))
  {
    TableReads(keys, width, values, rest, others);
    forall i | 0 <= i < |keys|
      ensures At(BlockEntries(blocks), blocks[k].section, blocks[k].sub, keys, i) == values[i].text
    {
      TextsOfBlock(blocks, k, keys[i]);
    }
    forall key | key in others
      ensures Texts(BlockEntries(blocks), blocks[k].section, blocks[k].sub, key) == FieldTexts(rest, key)
    {
      TextsOfBlock(blocks, k, key);
    }
  }

  lemma {:induction false} GlobalBack(k: Format, v: Vsphere, es: seq<Entry>)
    requires GoodFormat(k)
    requires es == BlockEntries(VsphereBlocks(k, v))
    ensures forall i :: 0 <= i < 4 ==> At(es, k.global, None, k.globalKeys, i) == GlobalValues(v)[i].text
    ensures Scalar(es, k.global, None, k.familyKey) == v.ipFamily
  {
    VsphereApart(k, v);
    FamilyReads(k, 9, v.ipFamily);
    BlockReads(VsphereBlocks(k, v), 0, k.globalKeys, 18, GlobalValues(v), FamilyFields(k, 9, v.ipFamily),
        {k.familyKey});
  }

  lemma {:induction false} PlainBack(k: Format, v: Vsphere, es: seq<Entry>)
    requires GoodFormat(k)
    requires es == BlockEntries(VsphereBlocks(k, v))
    ensures At(es, k.disk, None, k.diskKeys, 0) == v.scsiController
    ensures forall i :: 0 <= i < 4 ==> At(es, k.workspace, None, k.workspaceKeys, i) == WorkspaceValues(v)[i].text
  {
    VsphereApart(k, v);
    BlockReads(VsphereBlocks(k, v), 1, k.diskKeys, 18, [Quoted(v.scsiController)], [], {});
    BlockReads(VsphereBlocks(k, v), 2, k.workspaceKeys, 18, WorkspaceValues(v), [], {});
  }

  lemma {:induction false} CenterBack(k: Format, blocks: seq<Block>, i: nat, name: string, c: VCenter)
    requires GoodFormat(k) && Apart(blocks) && i < |blocks| && blocks[i] == CenterBlock(k, name, c)
    ensures CenterOf(k, BlockEntries(blocks), name) == c
  {
    FamilyReads(k, 1, c.ipFamily);
    BlockReads(blocks, i, k.centerKeys, 0, CenterValues(c), FamilyFields(k, 1, c.ipFamily), {k.familyKey});
    var es, sub := BlockEntries(blocks), Some(name);
    assert forall j :: 0 <= j < 4 ==> At(es, k.center, sub, k.centerKeys, j) == CenterValues(c)[j].text;
    assert Scalar(es, k.center, sub, k.familyKey) == c.ipFamily;
  }

  lemma {:induction false} SubsBack(k: Format, names: seq<string>, centers: map<string, VCenter>, first: seq<Block>)
    requires GoodFormat(k) && forall n :: n in names ==> n in centers
    requires forall b :: b in first ==> b.sub.None?
    ensures SubsOf(BlockEntries(first + CenterBlocks(k, names, centers)), k.center) == set n | n in names
  {
    var subs := CenterBlocks(k, names, centers);
    var blocks := first + subs;
    EntriesFromBlocks(blocks);
    forall n | n in names
      ensures n in SubsOf(BlockEntries(blocks), k.center)
    {
      var i :| 0 <= i < |names| && names[i] == n;
      assert subs[i] in blocks && subs[i].section == k.center && subs[i].sub == Some(n) && |subs[i].fields| >= 4;
      var e :| e in BlockEntries(blocks) && e.section == k.center && e.sub == Some(n);
    }
    forall n | n in SubsOf(BlockEntries(blocks), k.center)
      ensures n in names
    {
      var e :| e in BlockEntries(blocks) && e.section == k.center && e.sub.Some? && e.sub.value == n;
      var b :| b in blocks && b.section == e.section && b.sub == e.sub;
      assert b in subs;
    }
  }

  lemma {:induction false} CenterOfName(k: Format, names: seq<string>, centers: map<string, VCenter>,
      first: seq<Block>, n: string)
    requires GoodFormat(k) && n in names && forall x :: x in names ==> x in centers
    requires Apart(first + CenterBlocks(k, names, centers))
    ensures CenterOf(k, BlockEntries(first + CenterBlocks(k, names, centers)), n) == centers[n]
  {
    var subs := CenterBlocks(k, names, centers);
    var i :| 0 <= i < |names| && names[i] == n;
    assert (first + subs)[|first| + i] == subs[i];
    CenterBack(k, first + subs, |first| + i, n, centers[n]);
  }

  lemma {:induction false} CentersEqual(k: Format, es: seq<Entry>, centers: map<string, VCenter>)
    requires SubsOf(es, k.center) == centers.Keys
    requires forall n :: n in centers ==> CenterOf(k, es, n) == centers[n]
    ensures Centers(k, es) == centers
  {
    assert Centers(k, es).Keys == centers.Keys;
  }

  lemma {:induction false} CentersBackFrom(k: Format, names: seq<string>, centers: map<string, VCenter>,
      first: seq<Block>)
    requires GoodFormat(k) && (forall n :: n in names <==> n in centers)
    requires (forall b :: b in first ==> b.sub.None?) && Apart(first + CenterBlocks(k, names, centers))
    ensures Centers(k, BlockEntries(first + CenterBlocks(k, names, centers))) == centers
  {
    var es := BlockEntries(first + CenterBlocks(k, names, centers));
    SubsBack(k, names, centers, first);
    assert (set n | n in names) == centers.Keys;
    forall n | n in centers
      ensures CenterOf(k, es, n) == centers[n]
    {
      CenterOfName(k, names, centers, first, n);
    }
    CentersEqual(k, es, centers);
  }

  lemma {:induction false} CentersBack(k: Format, v: Vsphere, es: seq<Entry>)
    requires GoodFormat(k)
    requires es == BlockEntries(VsphereBlocks(k, v))
    ensures Centers(k, es) == v.centers
  {
    VsphereApart(k, v);
    CentersBackFrom(k, Ordered(v.centers.Keys), v.centers, [GlobalBlock(k, v), DiskBlock(k, v), WorkspaceBlock(k, v)]);
  }

  lemma {:induction false} VsphereFieldsBack(k: Format, v: Vsphere, es: seq<Entry>)
    requires GoodFormat(k)
    requires es == BlockEntries(VsphereBlocks(k, v))
    ensures VsphereOf(k, es) == v
  {
    GlobalBack(k, v, es);
    PlainBack(k, v, es);
    CentersBack(k, v, es);
    BoolReads(v.insecure);
    var g, w := GlobalValues(v), WorkspaceValues(v);
    assert g[0].text == v.user && g[1].text == v.password && g[2].text == v.port && g[3] == Bool(v.insecure);
    assert w[0].text == v.server && w[1].text == v.datacenter && w[2].text == v.folder && w[3].text == v.datastore;
  }

  ghost function VsphereText(k: Format, v: Vsphere): string
    requires GoodFormat(k)
  {
    TextOf(VsphereBlocks(k, v), 1)
  }

  lemma {:induction false} FormatReadsBack(k: Format, v: Vsphere)
    requires GoodFormat(k) && forall n :: n in v.centers ==> GoodPort(v.centers[n].port)
    ensures var r := Read(VsphereText(k, v));
      if OneLineVsphere(v) then r.Some? && VsphereOf(k, r.value) == v else r.None?
  {
    VsphereFramed(k, v);
    BlocksReadBack(VsphereBlocks(k, v), 1);
    VsphereFieldsBack(k, v, BlockEntries(VsphereBlocks(k, v)));
  }

  lemma {:induction false} LoginKeysGood(last: string)
    requires last == "insecure-flag" || last == "datacenters"
    ensures GoodKeys(["user", "password", "port", last], {"ip-family"})
  {
    var keys := ["user", "password", "port", last];
    assert forall i :: 0 <= i < |keys| ==> GoodKey(keys[i]);
  }

  lemma {:induction false} PlainKeysGood()
    ensures GoodKeys(["scsicontrollertype"], {})
    ensures GoodKeys(["server", "datacenter", "folder", "default-datastore"], {})
  {
    var keys := ["server", "datacenter", "folder", "default-datastore"];
    assert forall i :: 0 <= i < |keys| ==> GoodKey(keys[i]);
  }

  lemma {:induction false} SectionsGood(k: Format)
    requires k.global == "Global" && k.disk == "Disk" && k.workspace == "Workspace" && k.center == "VirtualCenter"
    ensures GoodSections(k)
  {
    assert |k.global| == 6 && |k.disk| == 4 && |k.workspace| == 9;
  }

  lemma {:induction false} VsphereFormatGood()
    ensures GoodFormat(VsphereFormat())
  {
    LoginKeysGood("insecure-flag");
    LoginKeysGood("datacenters");
    PlainKeysGood();
    SectionsGood(VsphereFormat());
    assert GoodKey("ip-family");
  }

  /**
    * A rendered vSphere config reads exactly when no name or value has a line break, and then gives
    * every field back, for any number of subsections whose ports need no quotes.
    */
  lemma {:induction false} VsphereReadsBack(v: Vsphere)
    requires forall n :: n in v.centers ==> GoodPort(v.centers[n].port)
    ensures GoodFormat(VsphereFormat())
    ensures var r := Read(VsphereText(VsphereFormat(), v));
      if OneLineVsphere(v) then r.Some? && VsphereOf(VsphereFormat(), r.value) == v else r.None?
  {
    VsphereFormatGood();
    FormatReadsBack(VsphereFormat(), v);
  }

  // ---------------------------------------------------------------- the vSphere template

  function Breaks(n: nat): string {
    if n == 0 then "" else "\n" + Breaks(n - 1)
  }

  function BlockText(b: Block): string {
    Breaks(b.before) + (RenderLine(Header(b.section, b.sub)) + "\n" + (Assignments(b.fields) + Breaks(b.after)))
  }

  function BlocksText(blocks: seq<Block>): string {
    if blocks == [] then "" else BlockText(blocks[0]) + BlocksText(blocks[1..])
  }

  lemma {:induction false} BlanksAsText(n: nat, more: seq<Line>)
    ensures RenderLines(Blanks(n) + more) == Breaks(n) + RenderLines(more)
  {
    if n == 0 {
      assert Blanks(n) + more == more;
    } else {
      var rest := Blanks(n - 1) + more;
      assert Blanks(n) + more == [Blank] + rest;
      BlanksAsText(n - 1, more);
      FirstBreak(rest);
      assert "\n" + Breaks(n - 1) + RenderLines(more) == "\n" + (Breaks(n - 1) + RenderLines(more));
    }
  }

  lemma {:induction false} FirstBreak(rest: seq<Line>)
    ensures RenderLines([Blank] + rest) == "\n" + RenderLines(rest)
  {
    assert ([Blank] + rest)[1..] == rest;
    assert [] + ['\n'] == "\n";
  }

  lemma {:induction false} BlockAsText(b: Block, more: seq<Line>)
    ensures RenderLines(BlockLines(b) + more) == BlockText(b) + RenderLines(more)
  {
    var tail := Blanks(b.after) + more;
    var body := FieldLines(b.fields) + tail;
    assert BlockLines(b) + more == Blanks(b.before) + ([Header(b.section, b.sub)] + body);
    BlanksAsText(b.before, [Header(b.section, b.sub)] + body);
    assert ([Header(b.section, b.sub)] + body)[1..] == body;
    FieldsAsText(b.fields, tail);
    BlanksAsText(b.after, more);
    Grouped(Breaks(b.before), RenderLine(Header(b.section, b.sub)) + "\n", Assignments(b.fields), Breaks(b.after),
        RenderLines(more));
  }

  lemma {:induction false} TrailingText(trailing: nat)
    ensures TextOf([], trailing) == BlocksText([]) + Breaks(trailing)
  {
    BlanksAsText(trailing, []);
    assert LinesOf([]) + Blanks(trailing) == Blanks(trailing) + [];
  }

  lemma {:induction false} BlocksAsText(blocks: seq<Block>, trailing: nat)
    ensures TextOf(blocks, trailing) == BlocksText(blocks) + Breaks(trailing)
  {
    if blocks == [] {
      TrailingText(trailing);
    } else {
      var first, rest := blocks[0], blocks[1..];
      LinesGrouped(BlockLines(first), LinesOf(rest), Blanks(trailing));
      BlockAsText(first, LinesOf(rest) + Blanks(trailing));
      BlocksAsText(rest, trailing);
      Grouped("", "", BlockText(first), BlocksText(rest), Breaks(trailing));
    }
  }

  function FamilyText(pad: nat, family: string): string {
    if family == "" then "" else Assignment("ip-family", pad, Escape(family))
  }

  function CenterText(name: string, c: VCenter): string {
    "\n[VirtualCenter " + Escape(name) + "]\n"
    + (Assignment("user", 1, Escape(c.user))
    + (Assignment("password", 1, Escape(c.password))
    + (Assignment("port", 1, c.port)
    + (Assignment("datacenters", 1, Escape(c.datacenters))
    + FamilyText(1, c.ipFamily)))))
  }

  function CentersText(names: seq<string>, centers: map<string, VCenter>): string
    requires forall n :: n in names ==> n in centers
  {
    if names == [] then ""
    else
      assert forall n :: n in names[1..] ==> n in names;
      CenterText(names[0], centers[names[0]]) + CentersText(names[1..], centers)
  }

  function GlobalText(v: Vsphere): string {
    "[Global]\n"
    + (Assignment("user", 14, Escape(v.user))
    + (Assignment("password", 10, Escape(v.password))
    + (Assignment("port", 14, Escape(v.port))
    + (Assignment("insecure-flag", 5, if v.insecure then "true" else "false")
    + FamilyText(9, v.ipFamily)))))
  }

  function DiskText(v: Vsphere): string {
    "\n[Disk]\n" + Assignment("scsicontrollertype", 1, Escape(v.scsiController))
  }

  function WorkspaceText(v: Vsphere): string {
    "\n[Workspace]\n"
    + (Assignment("server", 12, Escape(v.server))
    + (Assignment("datacenter", 8, Escape(v.datacenter))
    + (Assignment("folder", 12, Escape(v.folder))
    + (Assignment("default-datastore", 1, Escape(v.datastore))
    + "\n"))))
  }

  /** The text of the template, line by line. */
  ghost function VsphereTemplate(v: Vsphere): string {
    GlobalText(v) + (DiskText(v) + (WorkspaceText(v) + (CentersText(Ordered(v.centers.Keys), v.centers) + "\n")))
  }

  lemma {:induction false} FourRows(keys: seq<string>, width: nat, values: seq<Value>, more: string)
    requires |keys| == |values| == 4
    ensures Assignments(Table(keys, width, values)) + more
         == Assignment(keys[0], Pad(keys[0], width), RenderValue(values[0]))
          + (Assignment(keys[1], Pad(keys[1], width), RenderValue(values[1]))
          + (Assignment(keys[2], Pad(keys[2], width), RenderValue(values[2]))
          + (Assignment(keys[3], Pad(keys[3], width), RenderValue(values[3])) + more)))
  {
    RowText(keys, width, values, more);
    RowText(keys[1..], width, values[1..], more);
    RowText(keys[2..], width, values[2..], more);
    RowText(keys[3..], width, values[3..], more);
    assert Assignments(Table(keys[4..], width, values[4..])) + more == more;
  }

  /** A block of four settings and more, as text. */
  lemma {:induction false} FourText(before: nat, section: string, sub: Option<string>, keys: seq<string>, width: nat,
                                    values: seq<Value>, rest: seq<Field>, after: nat)
    requires |keys| == |values| == 4
    ensures BlockText(Block(before, section, sub, Table(keys, width, values) + rest, after))
         == Breaks(before) + (RenderLine(Header(section, sub)) + "\n"
          + (Assignment(keys[0], Pad(keys[0], width), RenderValue(values[0]))
          + (Assignment(keys[1], Pad(keys[1], width), RenderValue(values[1]))
          + (Assignment(keys[2], Pad(keys[2], width), RenderValue(values[2]))
          + (Assignment(keys[3], Pad(keys[3], width), RenderValue(values[3]))
          + (Assignments(rest) + Breaks(after)))))))
  {
    AssignmentsOfSum(Table(keys, width, values), rest);
    Grouped("", "", Assignments(Table(keys, width, values)), Assignments(rest), Breaks(after));
    FourRows(keys, width, values, Assignments(rest) + Breaks(after));
  }

  /** A key and the padding after it. */
  datatype Row = Row(key: string, pad: nat)

  /** The same with heading, keys, padding and tail spelled out. */
  lemma {:induction false} SpelledText(b: Block, keys: seq<string>, width: nat, values: seq<Value>, rest: seq<Field>,
                                       heading: string, r0: Row, r1: Row, r2: Row, r3: Row, tail: string)
    requires |keys| == |values| == 4 && b.fields == Table(keys, width, values) + rest
    requires Breaks(b.before) + (RenderLine(Header(b.section, b.sub)) + "\n") == heading
    requires Row(keys[0], Pad(keys[0], width)) == r0 && Row(keys[1], Pad(keys[1], width)) == r1
    requires Row(keys[2], Pad(keys[2], width)) == r2 && Row(keys[3], Pad(keys[3], width)) == r3
    requires Assignments(rest) + Breaks(b.after) == tail
    ensures BlockText(b) == heading
          + (Assignment(r0.key, r0.pad, RenderValue(values[0])) + (Assignment(r1.key, r1.pad, RenderValue(values[1]))
          + (Assignment(r2.key, r2.pad, RenderValue(values[2])) + (Assignment(r3.key, r3.pad,
              RenderValue(values[3])) + tail))))
  {
    FourText(b.before, b.section, b.sub, keys, width, values, rest, b.after);
  }

  /** The names that the template spells out. */
  predicate Spelled(k: Format) {
    && k.global == "Global" && k.disk == "Disk" && k.workspace == "Workspace" && k.center == "VirtualCenter"
    && k.familyKey == "ip-family"
    && |k.globalKeys| == 4 && |k.diskKeys| == 1 && |k.workspaceKeys| == 4 && |k.centerKeys| == 4
    && k.globalKeys[0] == "user" && k.globalKeys[1] == "password" && k.globalKeys[2] == "port"
        && k.globalKeys[3] == "insecure-flag"
    && k.diskKeys[0] == "scsicontrollertype"
    && k.workspaceKeys[0] == "server" && k.workspaceKeys[1] == "datacenter" && k.workspaceKeys[2] == "folder"
    && k.workspaceKeys[3] == "default-datastore"
    && k.centerKeys[0] == "user" && k.centerKeys[1] == "password" && k.centerKeys[2] == "port"
        && k.centerKeys[3] == "datacenters"
  }

  lemma {:induction false} FamilyAsText(k: Format, pad: nat, family: string)
    requires k.familyKey == "ip-family"
    ensures Assignments(FamilyFields(k, pad, family)) == FamilyText(pad, family)
  {
    var fields := FamilyFields(k, pad, family);
    if family != "" {
      assert fields[1..] == [];
      assert Assignments(fields) == Assignment(k.familyKey, pad, Escape(family)) + "";
    }
  }

  function Break(before: nat): string {
    if before == 0 then "" else "\n"
  }

  lemma {:induction false} PlainHeading(before: nat, section: string)
    requires before <= 1
    ensures Breaks(before) + (RenderLine(Header(section, None)) + "\n") == Break(before) + "[" + section + "]\n"
  {
    assert Breaks(before) == Break(before) by { assert Breaks(1) == "\n" + Breaks(0); }
  }

  lemma {:induction false} SubHeading(section: string, name: string)
    ensures "\n" + (['['] + (section + [' '] + name) + [']'] + "\n") == "\n[" + section + " " + name + "]\n"
  {
  }

  lemma {:induction false} CenterHeading(name: string)
    ensures Breaks(1) + (RenderLine(Header("VirtualCenter", Some(name))) + "\n")
         == "\n[VirtualCenter " + Escape(name) + "]\n"
  {
    SubHeading("VirtualCenter", Escape(name));
    assert Breaks(1) == "\n" + Breaks(0);
    assert "\n[" + "VirtualCenter" + " " == "\n[VirtualCenter ";
  }

  lemma {:induction false} CenterAsText(k: Format, name: string, c: VCenter)
    requires GoodFormat(k) && Spelled(k)
    ensures BlockText(CenterBlock(k, name, c)) == CenterText(name, c)
  {
    CenterHeading(name);
    FamilyAsText(k, 1, c.ipFamily);
    var tail := FamilyText(1, c.ipFamily);
    assert tail + Breaks(0) == tail;
    SpelledText(CenterBlock(k, name, c), k.centerKeys, 0, CenterValues(c), FamilyFields(k, 1, c.ipFamily),
      "\n[VirtualCenter " + Escape(name) + "]\n", Row("user", 1), Row("password", 1), Row("port", 1),
          Row("datacenters", 1), tail);
  }

  lemma {:induction false} GlobalHeading()
    ensures Breaks(0) + (RenderLine(Header("Global", None)) + "\n") == "[Global]\n"
  {
    PlainHeading(0, "Global");
  }

  lemma {:induction false} DiskHeading()
    ensures Breaks(1) + (RenderLine(Header("Disk", None)) + "\n") == "\n[Disk]\n"
  {
    PlainHeading(1, "Disk");
  }

  lemma {:induction false} WorkspaceHeading()
    ensures Breaks(1) + (RenderLine(Header("Workspace", None)) + "\n") == "\n[Workspace]\n"
  {
    PlainHeading(1, "Workspace");
  }

  lemma {:induction false} Pads()
    ensures Pad("user", 18) == 14 && Pad("password", 18) == 10 && Pad("port", 18) == 14 && Pad("insecure-flag", 18) == 5
    ensures Pad("scsicontrollertype", 18) == 1
    ensures Pad("server", 18) == 12 && Pad("datacenter", 18) == 8 && Pad("folder", 18) == 12
        && Pad("default-datastore", 18) == 1
  {
  }

  lemma {:induction false} GlobalAsText(k: Format, v: Vsphere)
    requires GoodFormat(k) && Spelled(k)
    ensures BlockText(GlobalBlock(k, v)) == GlobalText(v)
  {
    GlobalHeading();
    Pads();
    FamilyAsText(k, 9, v.ipFamily);
    var tail := FamilyText(9, v.ipFamily);
    assert tail + Breaks(0) == tail;
    SpelledText(GlobalBlock(k, v), k.globalKeys, 18, GlobalValues(v), FamilyFields(k, 9, v.ipFamily),
      "[Global]\n", Row("user", 14), Row("password", 10), Row("port", 14), Row("insecure-flag", 5), tail);
  }

  /** A block of one setting. */
  lemma {:induction false} OneRowText(b: Block, key: string, width: nat, value: Value, heading: string, row: Row)
    requires b.fields == Table([key], width, [value]) + [] && b.after == 0
    requires Breaks(b.before) + (RenderLine(Header(b.section, b.sub)) + "\n") == heading
    requires Row(key, Pad(key, width)) == row
    ensures BlockText(b) == heading + Assignment(row.key, row.pad, RenderValue(value))
  {
    var fields := [Field(key, Pad(key, width), value)];
    assert b.fields == fields && fields[1..] == [];
    var text := Assignment(row.key, row.pad, RenderValue(value));
    assert Assignments([]) == "" && Breaks(0) == "" && text + "" == text;
    assert Assignments(fields) == text + Assignments([]);
  }

  lemma {:induction false} DiskAsText(k: Format, v: Vsphere)
    requires GoodFormat(k) && Spelled(k)
    ensures BlockText(DiskBlock(k, v)) == DiskText(v)
  {
    DiskHeading();
    Pads();
    assert k.diskKeys == [k.diskKeys[0]];
    OneRowText(DiskBlock(k, v), k.diskKeys[0], 18, Quoted(v.scsiController), "\n[Disk]\n", Row("scsicontrollertype",
        1));
  }

  lemma {:induction false} WorkspaceAsText(k: Format, v: Vsphere)
    requires GoodFormat(k) && Spelled(k)
    ensures BlockText(WorkspaceBlock(k, v)) == WorkspaceText(v)
  {
    WorkspaceHeading();
    Pads();
    assert Assignments([]) + Breaks(1) == "\n";
    SpelledText(WorkspaceBlock(k, v), k.workspaceKeys, 18, WorkspaceValues(v), [],
      "\n[Workspace]\n", Row("server", 12), Row("datacenter", 8), Row("folder", 12), Row("default-datastore", 1), "\n");
  }

  lemma {:induction false} CentersAsText(k: Format, names: seq<string>, centers: map<string, VCenter>)
    requires GoodFormat(k) && Spelled(k) && forall n :: n in names ==> n in centers
    ensures BlocksText(CenterBlocks(k, names, centers)) == CentersText(names, centers)
  {
    if names != [] {
      assert forall n :: n in names[1..] ==> n in names;
      CenterAsText(k, names[0], centers[names[0]]);
      CentersAsText(k, names[1..], centers);
      assert CenterBlocks(k, names, centers)[1..] == CenterBlocks(k, names[1..], centers);
    }
  }

  lemma {:induction false} FirstBlockText(a: Block, rest: seq<Block>)
    ensures BlocksText([a] + rest) == BlockText(a) + BlocksText(rest)
  {
    assert ([a] + rest)[1..] == rest;
  }

  lemma {:induction false} ThreeBlocksText(a: Block, b: Block, c: Block, rest: seq<Block>)
    ensures BlocksText([a, b, c] + rest) == BlockText(a) + (BlockText(b) + (BlockText(c) + BlocksText(rest)))
  {
    FirstBlockText(a, [b] + ([c] + rest));
    FirstBlockText(b, [c] + rest);
    FirstBlockText(c, rest);
    assert [a, b, c] + rest == [a] + ([b] + ([c] + rest));
  }

  lemma {:induction false} FormatTextIsTemplate(k: Format, v: Vsphere)
    requires GoodFormat(k) && Spelled(k)
    ensures VsphereText(k, v) == VsphereTemplate(v)
  {
    var names := Ordered(v.centers.Keys);
    BlocksAsText(VsphereBlocks(k, v), 1);
    ThreeBlocksText(GlobalBlock(k, v), DiskBlock(k, v), WorkspaceBlock(k, v), CenterBlocks(k, names, v.centers));
    GlobalAsText(k, v);
    DiskAsText(k, v);
    WorkspaceAsText(k, v);
    CentersAsText(k, names, v.centers);
    Grouped(GlobalText(v), DiskText(v), WorkspaceText(v), CentersText(names, v.centers), "\n");
    assert Breaks(1) == "\n";
  }

  /** Rendering the blocks gives the text of the template. */
  lemma {:induction false} VsphereTextIsTemplate(v: Vsphere)
    ensures GoodFormat(VsphereFormat()) && VsphereText(VsphereFormat(), v) == VsphereTemplate(v)
  {
    VsphereFormatGood();
    FormatTextIsTemplate(VsphereFormat(), v);
  }
}
