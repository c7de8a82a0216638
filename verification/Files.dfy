/** Rendering the files of a profile with templates kept in maps, whose iteration order is arbitrary. */
module Files {
  import opened Cluster
  import opened Sorting

  // ---------------------------------------------------------------- the template engine

  datatype Tree = Tree(source: string)
  type Trees = map<string, Tree>

  /**
    * The template engine for one set of data: `parse(name, text)` gives the trees a text defines, its
    * own under `name`; `run` executes the tree of a name. What they do is left open.
    */
  datatype Engine = Engine(
    parse: (string, string) -> Option<Trees>,
    empty: Tree -> bool,
    run: (Trees, string) -> Option<string>)

  /** Parsing more text into a template: an empty tree does not replace an existing one. */
  function Add(e: Engine, trees: Trees, more: Trees): Trees {
    map n | n in trees.Keys + more.Keys ::
      if n !in more || (n in trees && e.empty(more[n])) then trees[n] else more[n]
  }

  function AddAll(e: Engine, trees: Trees, defs: map<string, Trees>, order: seq<string>): Trees
    requires forall n :: n in order ==> n in defs
  {
    if order == [] then trees
    else
      var last := |order| - 1;
      Add(e, AddAll(e, trees, defs, order[..last]), defs[order[last]])
  }

  /** Every element of a set, once: one order in which a map may be iterated. */
  ghost predicate Lists(order: seq<string>, s: set<string>) {
    && (forall n :: n in order <==> n in s)
    && forall i, j :: 0 <= i < j < |order| ==> order[i] != order[j]
  }

  predicate Defines(defs: map<string, Trees>, a: string, n: string) {
    a in defs && n in defs[a]
  }

  predicate Fills(e: Engine, defs: map<string, Trees>, a: string, n: string) {
    Defines(defs, a, n) && !e.empty(defs[a][n])
  }

  /**
    * Two texts that define one name differently: one of the definitions is empty, or both are and the
    * name has another definition anyway.
    */
  ghost predicate Settled(e: Engine, trees: Trees, defs: map<string, Trees>) {
    forall a, b, n :: Defines(defs, a, n) && Defines(defs, b, n) && defs[a][n] != defs[b][n] ==>
      || Fills(e, defs, a, n) != Fills(e, defs, b, n)
      || (!Fills(e, defs, a, n) && (n in trees || exists c :: Fills(e, defs, c, n)))
  }

  function Lookup(trees: Trees, n: string): Option<Tree> {
    if n in trees then Some(trees[n]) else None
  }

  /** The last definition of a name that is not empty. */
  function LastFill(e: Engine, defs: map<string, Trees>, order: seq<string>, n: string): Option<Tree>
    requires forall x :: x in order ==> x in defs
  {
    if order == [] then None
    else
      var last := |order| - 1;
      if Fills(e, defs, order[last], n) then Some(defs[order[last]][n]) else LastFill(e, defs, order[..last], n)
  }

  function FirstDefinition(defs: map<string, Trees>, order: seq<string>, n: string): Option<Tree>
    requires forall x :: x in order ==> x in defs
  {
    if order == [] then None
    else
      var last := |order| - 1;
      var before := FirstDefinition(defs, order[..last], n);
      if before.None? then Lookup(defs[order[last]], n) else before
  }

  /** The last definition that is not empty wins; failing that the first one. */
  lemma {:induction false} DefinitionOf(e: Engine, trees: Trees, defs: map<string, Trees>, order: seq<string>,
      n: string)
    requires forall x :: x in order ==> x in defs
    ensures Lookup(AddAll(e, trees, defs, order), n)
         == var filled := LastFill(e, defs, order, n);
            if filled.Some? then filled
            else if n in trees then Some(trees[n])
            else FirstDefinition(defs, order, n)
  {
    if order != [] { DefinitionOf(e, trees, defs, order[..|order| - 1], n); }
  }

  lemma {:induction false} FillIsFound(e: Engine, defs: map<string, Trees>, order: seq<string>, n: string)
    requires forall x :: x in order ==> x in defs
    ensures var f := LastFill(e, defs, order, n);
      && (f.Some? ==> exists c :: c in order && Fills(e, defs, c, n) && f.value == defs[c][n])
      && (f.None? ==> forall c :: c in order ==> !Fills(e, defs, c, n))
  {
    if order != [] {
      var front := order[..|order| - 1];
      assert order == front + [order[|order| - 1]];
      FillIsFound(e, defs, front, n);
    }
  }

  lemma {:induction false} DefinitionIsFound(defs: map<string, Trees>, order: seq<string>, n: string)
    requires forall x :: x in order ==> x in defs
    ensures var f := FirstDefinition(defs, order, n);
      && (f.Some? ==> exists c :: c in order && Defines(defs, c, n) && f.value == defs[c][n])
      && (f.None? ==> forall c :: c in order ==> !Defines(defs, c, n))
  {
    if order != [] {
      var front := order[..|order| - 1];
      assert order == front + [order[|order| - 1]];
      DefinitionIsFound(defs, front, n);
    }
  }

  lemma {:induction false} FillsAgree(e: Engine, trees: Trees, defs: map<string, Trees>, p: seq<string>,
      q: seq<string>, n: string)
    requires Settled(e, trees, defs) && (forall x :: x in p <==> x in defs) && (forall x :: x in q <==> x in defs)
    ensures LastFill(e, defs, p, n) == LastFill(e, defs, q, n)
  {
    FillIsFound(e, defs, p, n);
    FillIsFound(e, defs, q, n);
  }

  lemma {:induction false} DefinitionsAgree(e: Engine, trees: Trees, defs: map<string, Trees>, p: seq<string>,
      q: seq<string>, n: string)
    requires Settled(e, trees, defs) && (forall x :: x in p <==> x in defs) && (forall x :: x in q <==> x in defs)
    requires n !in trees && LastFill(e, defs, p, n).None?
    ensures FirstDefinition(defs, p, n) == FirstDefinition(defs, q, n)
  {
    FillIsFound(e, defs, p, n);
    DefinitionIsFound(defs, p, n);
    DefinitionIsFound(defs, q, n);
    assert forall c :: !Fills(e, defs, c, n);
  }

  lemma {:induction false} OrdersAgree(e: Engine, trees: Trees, defs: map<string, Trees>, p: seq<string>,
      q: seq<string>)
    requires Settled(e, trees, defs) && Lists(p, defs.Keys) && Lists(q, defs.Keys)
    ensures AddAll(e, trees, defs, p) == AddAll(e, trees, defs, q)
  {
    var a, b := AddAll(e, trees, defs, p), AddAll(e, trees, defs, q);
    forall n
      ensures Lookup(a, n) == Lookup(b, n)
    {
      DefinitionOf(e, trees, defs, p, n);
      DefinitionOf(e, trees, defs, q, n);
      FillsAgree(e, trees, defs, p, q, n);
      if n !in trees && LastFill(e, defs, p, n).None? { DefinitionsAgree(e, trees, defs, p, q, n); }
    }
    SameLookups(a, b);
  }

  lemma SameLookups(a: Trees, b: Trees)
    requires forall n :: Lookup(a, n) == Lookup(b, n)
    ensures a == b
  {
    forall n
      ensures (n in a <==> n in b) && (n in a ==> a[n] == b[n])
    {
      assert Lookup(a, n) == Lookup(b, n);
    }
  }

  lemma {:induction false} FirstDefinitionStays(e: Engine, trees: Trees, defs: map<string, Trees>, c: string,
      rest: seq<string>, n: string)
    requires forall x :: x in [c] + rest ==> x in defs
    requires n !in trees && Defines(defs, c, n) && forall x :: !Fills(e, defs, x, n)
    ensures var r := AddAll(e, trees, defs, [c] + rest); n in r && r[n] == defs[c][n]
  {
    var order := [c] + rest;
    if rest == [] {
      assert order[..0] == [] && order[0] == c;
    } else {
      var front := rest[..|rest| - 1];
      assert order[..|order| - 1] == [c] + front && order[|order| - 1] == rest[|rest| - 1];
      FirstDefinitionStays(e, trees, defs, c, front, n);
      assert !Fills(e, defs, rest[|rest| - 1], n);
    }
  }

  /** An order that starts, or ends, with a given element. */
  lemma OrdersFrom(s: set<string>, c: string)
    requires c in s
    ensures Lists([c] + Ordered(s - {c}), s) && Lists(Ordered(s - {c}) + [c], s) && Lists(Ordered(s), s)
  {
    var rest := Ordered(s - {c});
    IncreasingDistinct(rest);
    IncreasingDistinct(Ordered(s));
    var first, last := [c] + rest, rest + [c];
    assert forall n :: n in first <==> n == c || n in rest;
    assert forall n :: n in last <==> n == c || n in rest;
  }

  lemma IncreasingDistinct(xs: seq<string>)
    requires Increasing(xs)
    ensures forall i, j :: 0 <= i < j < |xs| ==> xs[i] != xs[j]
  {
    forall i, j | 0 <= i < j < |xs|
      ensures xs[i] != xs[j]
    {
      LessTotal(xs[i], xs[j]);
      LessTotal(xs[i], xs[i]);
    }
  }

  lemma OrderedLists(s: set<string>)
    ensures Lists(Ordered(s), s)
  {
    IncreasingDistinct(Ordered(s));
  }

  lemma {:induction false} LastDefinitionWins(e: Engine, trees: Trees, defs: map<string, Trees>, front: seq<string>,
      c: string, n: string)
    requires forall x :: x in front + [c] ==> x in defs
    requires Fills(e, defs, c, n)
    ensures var r := AddAll(e, trees, defs, front + [c]); n in r && r[n] == defs[c][n]
  {
    var order := front + [c];
    assert order[..|order| - 1] == front;
  }

  lemma {:induction false} OrderShows(e: Engine, trees: Trees, defs: map<string, Trees>)
      returns (p: seq<string>, q: seq<string>)
    requires !Settled(e, trees, defs)
    ensures Lists(p, defs.Keys) && Lists(q, defs.Keys)
    ensures AddAll(e, trees, defs, p) != AddAll(e, trees, defs, q)
  {
    var a, b, n :| Defines(defs, a, n) && Defines(defs, b, n) && defs[a][n] != defs[b][n]
      && Fills(e, defs, a, n) == Fills(e, defs, b, n)
      && (Fills(e, defs, a, n) || (n !in trees && forall c :: !Fills(e, defs, c, n)));
    var beforeA, beforeB := Ordered(defs.Keys - {a}), Ordered(defs.Keys - {b});
    OrdersFrom(defs.Keys, a);
    OrdersFrom(defs.Keys, b);
    if Fills(e, defs, a, n) {
      p, q := beforeA + [a], beforeB + [b];
      LastDefinitionWins(e, trees, defs, beforeA, a, n);
      LastDefinitionWins(e, trees, defs, beforeB, b, n);
    } else {
      p, q := [a] + beforeA, [b] + beforeB;
      FirstDefinitionStays(e, trees, defs, a, beforeA, n);
      FirstDefinitionStays(e, trees, defs, b, beforeB, n);
    }
  }

  /** The order in which texts are added makes no difference exactly when their definitions are settled. */
  lemma OrderIrrelevantIffSettled(e: Engine, trees: Trees, defs: map<string, Trees>)
    ensures Settled(e, trees, defs) <==>
      forall p, q :: Lists(p, defs.Keys) && Lists(q, defs.Keys) ==>
        AddAll(e, trees, defs, p) == AddAll(e, trees, defs, q)
  {
    if Settled(e, trees, defs) {
      forall p, q | Lists(p, defs.Keys) && Lists(q, defs.Keys) {
        OrdersAgree(e, trees, defs, p, q);
      }
    } else {
      var p, q := OrderShows(e, trees, defs);
    }
  }

  // ---------------------------------------------------------------- profiles

  datatype File = File(path: string, permissions: nat, content: string)

  datatype Runtime = Runtime(name: string, files: seq<File>, templates: map<string, string>)

  /** The files, templates and container runtimes of one half of a profile. */
  datatype Config = Config(files: seq<File>, templates: map<string, string>, runtimes: seq<Runtime>)

  function RuntimeOf(runtimes: seq<Runtime>, name: string): Option<Runtime> {
    if runtimes == [] then None
    else if runtimes[0].name == name then Some(runtimes[0])
    else RuntimeOf(runtimes[1..], name)
  }

  /** The templates of the runtime, overridden by those of the profile. */
  function TemplatesOf(c: Config, name: string): map<string, string> {
    var runtime := RuntimeOf(c.runtimes, name);
    if runtime.Some? then runtime.value.templates + c.templates else c.templates
  }

  /** `i` is the first runtime of that name. */
  ghost predicate FirstNamed(runtimes: seq<Runtime>, name: string, i: int) {
    0 <= i < |runtimes| && runtimes[i].name == name && forall j :: 0 <= j < i ==> runtimes[j].name != name
  }

  /** `ts` has the names of the profile and of the first matching runtime; a name of the profile carries
      the profile's text, any other the runtime's. */
  ghost predicate Merged(c: Config, name: string, ts: map<string, string>) {
    && (forall n :: n in ts <==>
          n in c.templates || exists i :: FirstNamed(c.runtimes, name, i) && n in c.runtimes[i].templates)
    && (forall n :: n in c.templates && n in ts ==> ts[n] == c.templates[n])
    && forall n, i ::
         FirstNamed(c.runtimes, name, i) && n in c.runtimes[i].templates && n !in c.templates && n in ts ==>
           ts[n] == c.runtimes[i].templates[n]
  }

  lemma {:induction false} RuntimeIsFirst(runtimes: seq<Runtime>, name: string)
    ensures var r := RuntimeOf(runtimes, name);
      && (r.Some? ==> exists i :: FirstNamed(runtimes, name, i) && r.value == runtimes[i])
      && (forall i :: FirstNamed(runtimes, name, i) ==> r == Some(runtimes[i]))
  {
    if runtimes != [] && runtimes[0].name != name {
      RuntimeIsFirst(runtimes[1..], name);
      var r := RuntimeOf(runtimes[1..], name);
      if r.Some? {
        var i :| FirstNamed(runtimes[1..], name, i) && r.value == runtimes[1..][i];
        assert FirstNamed(runtimes, name, i + 1);
      }
      forall i | FirstNamed(runtimes, name, i)
        ensures r == Some(runtimes[i])
      {
        assert runtimes[i] == runtimes[1..][i - 1];
        assert forall j :: 0 <= j < i - 1 ==> runtimes[1..][j] == runtimes[j + 1];
        assert FirstNamed(runtimes[1..], name, i - 1);
      }
    } else if runtimes != [] {
      assert FirstNamed(runtimes, name, 0);
    }
  }

  lemma {:induction false} TemplatesAreMerged(c: Config, name: string)
    ensures Merged(c, name, TemplatesOf(c, name))
  {
    RuntimeIsFirst(c.runtimes, name);
  }

  /** The files of the profile, then those of the runtime. */
  function SourceFiles(c: Config, name: string): seq<File> {
    var runtime := RuntimeOf(c.runtimes, name);
    if runtime.Some? then c.files + runtime.value.files else c.files
  }

  function Rendered(e: Engine, name: string, text: string): Option<string> {
    var trees := e.parse(name, text);
    if trees.None? then None else e.run(trees.value, name)
  }

  function AddTemplatingSequence(name: string, body: string): string {
    "\n{{- define \"" + name + "\" }}\n" + body + "\n{{- end }}"
  }

  predicate AllRender(e: Engine, ts: map<string, string>) {
    forall n :: n in ts ==> Rendered(e, n, ts[n]).Some?
  }

  function Definition(e: Engine, ts: map<string, string>, n: string): string
    requires AllRender(e, ts) && n in ts
  {
    AddTemplatingSequence(n, Rendered(e, n, ts[n]).value)
  }

  function Definitions(e: Engine, ts: map<string, string>, order: seq<string>): (r: seq<string>)
    requires AllRender(e, ts) && forall n :: n in order ==> n in ts
    ensures |r| == |order| && forall i :: 0 <= i < |r| ==> r[i] == Definition(e, ts, order[i])
  {
    if order == [] then []
    else
      var last := |order| - 1;
      Definitions(e, ts, order[..last]) + [Definition(e, ts, order[last])]
  }

  function ParseAll(e: Engine, path: string, trees: Trees, texts: seq<string>): Option<Trees> {
    if texts == [] then Some(trees)
    else
      var last := |texts| - 1;
      var before := ParseAll(e, path, trees, texts[..last]);
      var more := e.parse(path, texts[last]);
      if before.None? || more.None? then None else Some(Add(e, before.value, more.value))
  }

  /** One file with the definitions in scope; a file without permissions gets 644. */
  function FileOf(e: Engine, file: File, texts: seq<string>): Option<File> {
    var trees := e.parse(file.path, file.content);
    if trees.None? then None
    else
      var all := ParseAll(e, file.path, trees.value, texts);
      if all.None? then None
      else
        var text := e.run(all.value, file.path);
        if text.None? then None
        else Some(File(file.path, if file.permissions == 0 then 644 else file.permissions, text.value))
  }

  function FilesIn(e: Engine, files: seq<File>, texts: seq<string>): Option<seq<File>> {
    if files == [] then Some([])
    else
      var last := |files| - 1;
      var before := FilesIn(e, files[..last], texts);
      var file := FileOf(e, files[last], texts);
      if before.None? || file.None? then None else Some(before.value + [file.value])
  }

  /** What rendering must give: the files in order, with the templates defined in the order of their names. */
  ghost function FilesOf(e: Engine, c: Config, name: string): Option<seq<File>> {
    var ts := TemplatesOf(c, name);
    if !AllRender(e, ts) then None
    else FilesIn(e, SourceFiles(c, name), Definitions(e, ts, Ordered(ts.Keys)))
  }

  // ---------------------------------------------------------------- independence of map order

  predicate AllParse(e: Engine, path: string, ts: map<string, string>)
    requires AllRender(e, ts)
  {
    forall n :: n in ts ==> e.parse(path, Definition(e, ts, n)).Some?
  }

  /** The trees that each template's definition adds to the template of a file. */
  function DefsOf(e: Engine, path: string, ts: map<string, string>): map<string, Trees>
    requires AllRender(e, ts) && AllParse(e, path, ts)
  {
    map n | n in ts :: e.parse(path, Definition(e, ts, n)).value
  }

  /** No file sees two templates define one name differently. */
  ghost predicate Unambiguous(e: Engine, files: seq<File>, ts: map<string, string>)
    requires AllRender(e, ts)
  {
    forall f :: f in files && e.parse(f.path, f.content).Some? && AllParse(e, f.path, ts) ==>
      Settled(e, e.parse(f.path, f.content).value, DefsOf(e, f.path, ts))
  }

  ghost predicate Clear(e: Engine, c: Config, name: string) {
    var ts := TemplatesOf(c, name);
    AllRender(e, ts) ==> Unambiguous(e, SourceFiles(c, name), ts)
  }

  /** A possible result: the files under some order of the templates, or an error if one does not render. */
  ghost predicate Renders(e: Engine, c: Config, name: string, r: Option<seq<File>>) {
    var ts := TemplatesOf(c, name);
    if AllRender(e, ts) then
      exists order :: Lists(order, ts.Keys) && r == FilesIn(e, SourceFiles(c, name), Definitions(e, ts, order))
    else r.None?
  }

  lemma FilesOfRenders(e: Engine, c: Config, name: string)
    ensures Renders(e, c, name, FilesOf(e, c, name))
  {
    OrderedLists(TemplatesOf(c, name).Keys);
  }

  /** A clear profile has one possible result. */
  lemma ClearRendersOnce(e: Engine, c: Config, name: string, r: Option<seq<File>>)
    requires Clear(e, c, name)
    ensures Renders(e, c, name, r) <==> r == FilesOf(e, c, name)
  {
    FilesOfRenders(e, c, name);
    var ts := TemplatesOf(c, name);
    if Renders(e, c, name, r) && AllRender(e, ts) {
      var files := SourceFiles(c, name);
      var order :| Lists(order, ts.Keys) && r == FilesIn(e, files, Definitions(e, ts, order));
      OrderedLists(ts.Keys);
      FilesForgetOrder(e, files, ts, order, Ordered(ts.Keys));
    }
  }

  lemma {:induction false} ParseAllIsAddAll(e: Engine, path: string, trees: Trees, ts: map<string, string>,
      order: seq<string>)
    requires AllRender(e, ts) && AllParse(e, path, ts) && forall n :: n in order ==> n in ts
    ensures ParseAll(e, path, trees, Definitions(e, ts, order)) == Some(AddAll(e, trees, DefsOf(e, path, ts), order))
  {
    if order != [] {
      var last := |order| - 1;
      var texts := Definitions(e, ts, order);
      assert texts[..last] == Definitions(e, ts, order[..last]);
      ParseAllIsAddAll(e, path, trees, ts, order[..last]);
    }
  }

  lemma {:induction false} ParseAllFails(e: Engine, path: string, trees: Trees, ts: map<string, string>,
      order: seq<string>, bad: string)
    requires AllRender(e, ts) && forall n :: n in order ==> n in ts
    requires bad in order && e.parse(path, Definition(e, ts, bad)).None?
    ensures ParseAll(e, path, trees, Definitions(e, ts, order)).None?
  {
    var last := |order| - 1;
    var texts := Definitions(e, ts, order);
    assert texts[..last] == Definitions(e, ts, order[..last]);
    if order[last] != bad {
      assert order == order[..last] + [order[last]];
      ParseAllFails(e, path, trees, ts, order[..last], bad);
    }
  }

  lemma {:induction false} TreesForgetOrder(e: Engine, path: string, trees: Trees, ts: map<string, string>,
      p: seq<string>, q: seq<string>)
    requires AllRender(e, ts) && Lists(p, ts.Keys) && Lists(q, ts.Keys)
    requires AllParse(e, path, ts) ==> Settled(e, trees, DefsOf(e, path, ts))
    ensures ParseAll(e, path, trees, Definitions(e, ts, p)) == ParseAll(e, path, trees, Definitions(e, ts, q))
  {
    if AllParse(e, path, ts) {
      var defs := DefsOf(e, path, ts);
      ParseAllIsAddAll(e, path, trees, ts, p);
      ParseAllIsAddAll(e, path, trees, ts, q);
      assert defs.Keys == ts.Keys;
      OrdersAgree(e, trees, defs, p, q);
    } else {
      var bad :| bad in ts && e.parse(path, Definition(e, ts, bad)).None?;
      ParseAllFails(e, path, trees, ts, p, bad);
      ParseAllFails(e, path, trees, ts, q, bad);
    }
  }

  lemma {:induction false} FileForgetsOrder(e: Engine, file: File, ts: map<string, string>, p: seq<string>,
      q: seq<string>)
    requires AllRender(e, ts) && Lists(p, ts.Keys) && Lists(q, ts.Keys)
    requires Unambiguous(e, [file], ts)
    ensures FileOf(e, file, Definitions(e, ts, p)) == FileOf(e, file, Definitions(e, ts, q))
  {
    var parsed := e.parse(file.path, file.content);
    if parsed.Some? {
      assert file in [file];
      TreesForgetOrder(e, file.path, parsed.value, ts, p, q);
    }
  }

  /** Whatever order the templates were iterated in, the files come out the same. */
  lemma {:induction false} FilesForgetOrder(e: Engine, files: seq<File>, ts: map<string, string>, p: seq<string>,
      q: seq<string>)
    requires AllRender(e, ts) && Unambiguous(e, files, ts) && Lists(p, ts.Keys) && Lists(q, ts.Keys)
    ensures FilesIn(e, files, Definitions(e, ts, p)) == FilesIn(e, files, Definitions(e, ts, q))
  {
    if files != [] {
      var front, last := files[..|files| - 1], files[|files| - 1];
      assert files == front + [last];
      FilesForgetOrder(e, front, ts, p, q);
      FileForgetsOrder(e, last, ts, p, q);
    }
  }

  /** Rendered bodies without further definitions are unambiguous. */
  lemma {:induction false} PlainBodiesUnambiguous(e: Engine, files: seq<File>, ts: map<string, string>)
    requires AllRender(e, ts)
    requires forall f, text :: f in files && e.parse(f.path, text).Some? ==> f.path in e.parse(f.path, text).value
    requires forall f, n :: f in files && n in ts && e.parse(f.path, Definition(e, ts, n)).Some? ==>
      var trees := e.parse(f.path, Definition(e, ts, n)).value;
      trees.Keys == {f.path, n} && f.path in trees && (n != f.path ==> e.empty(trees[f.path]))
    ensures Unambiguous(e, files, ts)
  {
    forall f | f in files && e.parse(f.path, f.content).Some? && AllParse(e, f.path, ts)
      ensures Settled(e, e.parse(f.path, f.content).value, DefsOf(e, f.path, ts))
    {
      var defs := DefsOf(e, f.path, ts);
      forall a, n | Defines(defs, a, n)
        ensures n == a || (n == f.path && !Fills(e, defs, a, n))
      {
        assert defs[a] == e.parse(f.path, Definition(e, ts, a)).value && defs[a].Keys == {f.path, a};
      }
    }
  }

  // ---------------------------------------------------------------- what the texts say

  /** What a template comes to: its own text, parsed and run under its own name. */
  function Body(e: Engine, n: string, text: string): Option<string> {
    if e.parse(n, text).None? then None else e.run(e.parse(n, text).value, n)
  }

  /** Each text defines one template by its body. */
  ghost predicate DefinitionTexts(e: Engine, ts: map<string, string>, order: seq<string>, texts: seq<string>) {
    && |texts| == |order|
    && forall i :: 0 <= i < |order| ==>
         && order[i] in ts && Body(e, order[i], ts[order[i]]).Some?
         && texts[i] == "\n{{- define \"" + order[i] + "\" }}\n"
              + Body(e, order[i], ts[order[i]]).value + "\n{{- end }}"
  }

  /** An error exactly if one template does not render; else one text each, in some order. */
  ghost predicate RenderedAs(e: Engine, ts: map<string, string>, r: Option<seq<string>>) {
    && (r.None? <==> exists n :: n in ts && Body(e, n, ts[n]).None?)
    && (r.Some? ==> exists order :: Lists(order, ts.Keys) && DefinitionTexts(e, ts, order, r.value))
  }

  lemma {:induction false} RendersAsTexts(e: Engine, ts: map<string, string>, order: seq<string>)
    requires AllRender(e, ts) && Lists(order, ts.Keys)
    ensures RenderedAs(e, ts, Some(Definitions(e, ts, order)))
  {
    forall n | n in ts ensures Body(e, n, ts[n]).Some? { assert Rendered(e, n, ts[n]).Some?; }
    var texts := Definitions(e, ts, order);
    forall i | 0 <= i < |order|
      ensures texts[i] == "\n{{- define \"" + order[i] + "\" }}\n"
        + Body(e, order[i], ts[order[i]]).value + "\n{{- end }}"
    {
      assert order[i] in ts && texts[i] == Definition(e, ts, order[i]);
    }
    assert DefinitionTexts(e, ts, order, texts);
  }

  /** The content of a rendered file is the run of its own template, with all definitions parsed into it
      after its own text. */
  lemma {:induction false} ContentIsRun(e: Engine, files: seq<File>, texts: seq<string>, i: nat)
    requires FilesIn(e, files, texts).Some? && i < |files|
    ensures |FilesIn(e, files, texts).value| == |files|
    ensures var f := files[i];
      && e.parse(f.path, f.content).Some?
      && exists all :: ParseAll(e, f.path, e.parse(f.path, f.content).value, texts) == Some(all)
           && e.run(all, f.path) == Some(FilesIn(e, files, texts).value[i].content)
  {
    FilesKeepPlace(e, files, texts);
    var last := |files| - 1;
    if i < last {
      ContentIsRun(e, files[..last], texts, i);
    } else {
      var f := files[last];
      var all := ParseAll(e, f.path, e.parse(f.path, f.content).value, texts).value;
      assert e.run(all, f.path) == Some(FilesIn(e, files, texts).value[i].content);
    }
  }

  // ---------------------------------------------------------------- the code

  method SelectAdditionalFiles(c: Config, name: string) returns (r: seq<File>)
    ensures c.files + r == SourceFiles(c, name)
    ensures forall i :: FirstNamed(c.runtimes, name, i) ==> r == c.runtimes[i].files
    ensures (forall i :: !FirstNamed(c.runtimes, name, i)) ==> r == []
  {
    RuntimeIsFirst(c.runtimes, name);
    r := [];
    var i := 0;
    while i < |c.runtimes|
      invariant 0 <= i <= |c.runtimes| && r == []
      invariant RuntimeOf(c.runtimes, name) == RuntimeOf(c.runtimes[i..], name)
    {
      if c.runtimes[i].name == name {
        r := r + c.runtimes[i].files;
        return;
      }
      i := i + 1;
    }
  }

  /** The definitions in whatever order the map of templates was iterated; those of the profile override
      those of the first matching runtime. */
  method SelectAdditionalTemplates(e: Engine, c: Config, name: string) returns (r: Option<seq<string>>)
    ensures exists ts :: Merged(c, name, ts) && RenderedAs(e, ts, r)
    ensures var ts := TemplatesOf(c, name);
      && (r.None? <==> !AllRender(e, ts))
      && (r.Some? ==> exists order :: Lists(order, ts.Keys) && r.value == Definitions(e, ts, order))
  {
    var ts := MergeTemplates(c, name);
    r := RenderTemplates(e, ts);
  }

  method MergeTemplates(c: Config, name: string) returns (ts: map<string, string>)
    ensures ts == TemplatesOf(c, name) && Merged(c, name, ts)
  {
    ts := map[];
    var i := 0;
    while i < |c.runtimes|
      invariant 0 <= i <= |c.runtimes| && ts == map[]
      invariant RuntimeOf(c.runtimes, name) == RuntimeOf(c.runtimes[i..], name)
    {
      if c.runtimes[i].name == name {
        ts := ts + c.runtimes[i].templates;
        break;
      }
      i := i + 1;
    }
    ts := ts + c.templates;
    assert ts == TemplatesOf(c, name);
    TemplatesAreMerged(c, name);
  }

  method RenderTemplates(e: Engine, ts: map<string, string>) returns (r: Option<seq<string>>)
    ensures r.None? <==> !AllRender(e, ts)
    ensures r.Some? ==> exists order :: Lists(order, ts.Keys) && r.value == Definitions(e, ts, order)
    ensures RenderedAs(e, ts, r)
  {
    var texts: seq<string> := [];
    var todo := ts.Keys;
    ghost var order: seq<string> := [];
    while todo != {}
      invariant todo <= ts.Keys && Lists(order, ts.Keys - todo) && |texts| == |order|
      invariant forall n :: n in order ==> n in ts && Rendered(e, n, ts[n]).Some?
      invariant forall i :: 0 <= i < |texts| ==>
        order[i] in ts && texts[i] == AddTemplatingSequence(order[i], Rendered(e, order[i], ts[order[i]]).value)
      decreases todo
    {
      var n :| n in todo;
      var body := Rendered(e, n, ts[n]);
      if body.None? {
        assert Body(e, n, ts[n]).None?;
        return None;
      }
      texts := texts + [AddTemplatingSequence(n, body.value)];
      assert n !in order;
      order := order + [n];
      todo := todo - {n};
    }
    assert texts == Definitions(e, ts, order);
    RendersAsTexts(e, ts, order);
    return Some(texts);
  }

  method PopulateFile(e: Engine, file: File, texts: seq<string>) returns (r: Option<File>)
    ensures r == FileOf(e, file, texts)
  {
    var parsed := e.parse(file.path, file.content);
    if parsed.None? { return None; }
    var trees := parsed.value;
    var i := 0;
    while i < |texts|
      invariant 0 <= i <= |texts| && ParseAll(e, file.path, parsed.value, texts[..i]) == Some(trees)
    {
      var more := e.parse(file.path, texts[i]);
      assert texts[..i + 1][..i] == texts[..i];
      if more.None? {
        ParseAllStuck(e, file.path, parsed.value, texts, i + 1);
        return None;
      }
      trees := Add(e, trees, more.value);
      i := i + 1;
    }
    assert texts[..i] == texts;
    var text := e.run(trees, file.path);
    if text.None? { return None; }
    r := Some(File(file.path, if file.permissions == 0 then 644 else file.permissions, text.value));
  }

  lemma {:induction false} ParseAllStuck(e: Engine, path: string, trees: Trees, texts: seq<string>, i: nat)
    requires i <= |texts| && ParseAll(e, path, trees, texts[..i]).None?
    ensures ParseAll(e, path, trees, texts).None?
    decreases |texts|
  {
    if i == |texts| {
      assert texts[..i] == texts;
    } else {
      var front := texts[..|texts| - 1];
      assert front[..i] == texts[..i];
      ParseAllStuck(e, path, trees, front, i);
    }
  }

  method PopulateFilesList(e: Engine, files: seq<File>, texts: seq<string>) returns (r: Option<seq<File>>)
    ensures r == FilesIn(e, files, texts)
  {
    var populated: seq<File> := [];
    var i := 0;
    while i < |files|
      invariant 0 <= i <= |files| && FilesIn(e, files[..i], texts) == Some(populated)
    {
      var file := PopulateFile(e, files[i], texts);
      assert files[..i + 1][..i] == files[..i];
      if file.None? {
        FilesInStuck(e, files, texts, i + 1);
        return None;
      }
      populated := populated + [file.value];
      i := i + 1;
    }
    assert files[..i] == files;
    r := Some(populated);
  }

  lemma {:induction false} FilesInStuck(e: Engine, files: seq<File>, texts: seq<string>, i: nat)
    requires i <= |files| && FilesIn(e, files[..i], texts).None?
    ensures FilesIn(e, files, texts).None?
    decreases |files|
  {
    if i == |files| {
      assert files[..i] == files;
    } else {
      var front := files[..|files| - 1];
      assert front[..i] == files[..i];
      FilesInStuck(e, front, texts, i);
    }
  }

  /** The rendered files come from some order of the templates; when that is clear, from any order. */
  method RenderedFiles(e: Engine, c: Config, name: string) returns (r: Option<seq<File>>)
    ensures Renders(e, c, name, r)
    ensures Clear(e, c, name) ==> r == FilesOf(e, c, name)
  {
    var more := SelectAdditionalFiles(c, name);
    var texts := SelectAdditionalTemplates(e, c, name);
    if texts.None? { return None; }
    r := PopulateFilesList(e, c.files + more, texts.value);
    ghost var ts := TemplatesOf(c, name);
    ghost var order :| Lists(order, ts.Keys) && texts.value == Definitions(e, ts, order);
    assert Renders(e, c, name, r);
    if Clear(e, c, name) { ClearRendersOnce(e, c, name, r); }
  }

  // ---------------------------------------------------------------- hosts files

  function HostFiles(paths: seq<string>, hosts: map<string, string>): (r: seq<File>)
    requires forall p :: p in paths ==> p in hosts
    ensures |r| == |paths| && forall i :: 0 <= i < |r| ==> r[i] == File(paths[i], 600, hosts[paths[i]])
  {
    if paths == [] then []
    else
      var last := |paths| - 1;
      HostFiles(paths[..last], hosts) + [File(paths[last], 600, hosts[paths[last]])]
  }

  lemma {:induction false} NextHostFile(files: seq<File>, paths: seq<string>, hosts: map<string, string>, i: nat)
    requires i < |paths| && forall p :: p in paths ==> p in hosts
    ensures files + HostFiles(paths[..i + 1], hosts)
         == files + HostFiles(paths[..i], hosts) + [File(paths[i], 600, hosts[paths[i]])]
  {
    assert paths[..i + 1][..i] == paths[..i];
  }

  /** The keys of a map in order, collected in whatever order it was iterated. */
  method SortedPaths(hosts: map<string, string>) returns (paths: seq<string>)
    ensures paths == Ordered(hosts.Keys)
  {
    paths := [];
    var todo := hosts.Keys;
    while todo != {}
      invariant todo <= hosts.Keys && forall p :: p in paths <==> p in hosts.Keys - todo
      decreases todo
    {
      var p :| p in todo;
      paths := paths + [p];
      todo := todo - {p};
    }
    SortingForgetsOrder(paths, hosts.Keys);
    paths := SortUnique(paths);
  }

  /** Hosts files follow in the order of their paths. */
  method InjectRegistryHostConfigs(files: seq<File>, hosts: map<string, string>) returns (r: seq<File>)
    ensures r == files + HostFiles(Ordered(hosts.Keys), hosts)
  {
    var paths := SortedPaths(hosts);
    r := files;
    var i := 0;
    while i < |paths|
      invariant 0 <= i <= |paths| && r == files + HostFiles(paths[..i], hosts)
    {
      NextHostFile(files, paths, hosts, i);
      r := r + [File(paths[i], 600, hosts[paths[i]])];
      i := i + 1;
    }
    assert paths[..i] == paths;
  }

  lemma SomeElement(xs: seq<string>)
    ensures xs == [] || exists x :: x in xs
  {
    if xs != [] { assert xs[0] in xs; }
  }

  lemma {:induction false} NoHosts(files: seq<File>, hosts: map<string, string>)
    requires hosts == map[]
    ensures files + HostFiles(Ordered(hosts.Keys), hosts) == files
  {
    SomeElement(Ordered(hosts.Keys));
    assert files + [] == files;
  }

  /** Both halves together; hosts files go to provisioning only. */
  ghost function Assembled(b: Option<seq<File>>, p: Option<seq<File>>, hosts: map<string, string>)
      : Option<(seq<File>, seq<File>)> {
    if b.None? || p.None? then None
    else Some((b.value, p.value + HostFiles(Ordered(hosts.Keys), hosts)))
  }

  /** Both halves of a profile: each in some order of its templates, and the one result if it is clear. */
  method RenderOSPFiles(e: Engine, bootstrapping: Config, provisioning: Config, name: string,
                        hosts: map<string, string>)
      returns (r: Option<(seq<File>, seq<File>)>)
    ensures exists b, p ::
      Renders(e, bootstrapping, name, b) && Renders(e, provisioning, name, p) && r == Assembled(b, p, hosts)
    ensures Clear(e, bootstrapping, name) && Clear(e, provisioning, name) ==>
      r == Assembled(FilesOf(e, bootstrapping, name), FilesOf(e, provisioning, name), hosts)
  {
    var b := RenderedFiles(e, bootstrapping, name);
    if b.None? {
      FilesOfRenders(e, provisioning, name);
      assert None == Assembled(b, FilesOf(e, provisioning, name), hosts);
      return None;
    }
    var p := RenderedFiles(e, provisioning, name);
    if p.None? {
      assert None == Assembled(b, p, hosts);
      return None;
    }
    var files := InjectIfAny(p.value, hosts);
    r := Some((b.value, files));
    assert r == Assembled(b, p, hosts);
  }

  method InjectIfAny(files: seq<File>, hosts: map<string, string>) returns (r: seq<File>)
    ensures r == files + HostFiles(Ordered(hosts.Keys), hosts)
  {
    if hosts != map[] {
      r := InjectRegistryHostConfigs(files, hosts);
    } else {
      NoHosts(files, hosts);
      r := files;
    }
  }

  /** Rendering keeps the place and path of every source file and never leaves one without permissions. */
  lemma {:induction false} FilesKeepPlace(e: Engine, files: seq<File>, texts: seq<string>)
    requires FilesIn(e, files, texts).Some?
    ensures var r := FilesIn(e, files, texts).value;
      && |r| == |files|
      && forall i :: 0 <= i < |r| ==>
        r[i].path == files[i].path && r[i].permissions == (if files[i].permissions == 0 then 644
            else files[i].permissions)
  {
    if files != [] { FilesKeepPlace(e, files[..|files| - 1], texts); }
  }

  /** Base files come first, then those of the runtime. */
  lemma {:induction false} Layout(e: Engine, c: Config, runtime: Runtime, name: string)
    requires RuntimeOf(c.runtimes, name) == Some(runtime) && FilesOf(e, c, name).Some?
    ensures var r := FilesOf(e, c, name).value;
      && |r| == |c.files| + |runtime.files|
      && (forall i :: 0 <= i < |c.files| ==> r[i].path == c.files[i].path)
      && (forall i :: |c.files| <= i < |r| ==> r[i].path == runtime.files[i - |c.files|].path)
  {
    var ts := TemplatesOf(c, name);
    FilesKeepPlace(e, SourceFiles(c, name), Definitions(e, ts, Ordered(ts.Keys)));
  }

  /** One file for each hosts path, in increasing order of the paths. */
  lemma {:induction false} HostsLayout(hosts: map<string, string>)
    ensures var r := HostFiles(Ordered(hosts.Keys), hosts);
      && (forall i, j :: 0 <= i < j < |r| ==> Less(r[i].path, r[j].path))
      && (forall f :: f in r <==> f.path in hosts && f == File(f.path, 600, hosts[f.path]))
  {
    var paths := Ordered(hosts.Keys);
    var r := HostFiles(paths, hosts);
    forall p | p in hosts
      ensures File(p, 600, hosts[p]) in r
    {
      var i :| 0 <= i < |paths| && paths[i] == p;
      assert r[i] == File(p, 600, hosts[p]);
    }
  }
}
