/** The broken-link collector: every document of every world collection of a
    listed type is searched, embedded collections first, and every listed
    image path whose value is a non-empty link that fails the probe is
    reported as a finding. */
module BrokenLinks {
  import opened Documents

  /** A reported broken link: the document, the property path, and its value. */
  datatype Finding = Finding(doc: Doc, path: string, value: string)

  /** `property[kind] ?? []`: the paths listed for a document type; a type the
      table does not list has none. */
  function ListedPaths(table: Table, kind: string): (paths: seq<string>)
    ensures kind !in KeysOf(table) ==> paths == []
    ensures kind in KeysOf(table) ==> Lookup(table, kind) == Some(paths)
  {
    match Lookup(table, kind)
    case None => []
    case Some(ps) => ps
  }

  /** Whether a path of a document holds a broken link: a non-empty value that
      fails the probe. */
  predicate IsBroken(d: Doc, path: string, probe: string -> bool) {
    Value(d, path) != "" && !probe(Value(d, path))
  }

  // ---------------------------------------------------------------------------
  // The specification of a search, as functions

  /** The findings for a document's own paths, in path order. */
  function OwnFindings(d: Doc, paths: seq<string>, probe: string -> bool): seq<Finding>
    decreases |paths|
  {
    if paths == [] then []
    else
      var init := OwnFindings(d, paths[..|paths| - 1], probe);
      var path := paths[|paths| - 1];
      if IsBroken(d, path, probe) then init + [Finding(d, path, Value(d, path))] else init
  }

  /** `findDoc`: the findings of the embedded collections in metadata order,
      then the document's own. */
  function DocFindings(table: Table, d: Doc, probe: string -> bool): Result<seq<Finding>>
    decreases Size(d), 0, 0
  {
    var below :- EntriesFindings(table, d.embedded, probe);
    Success(below + OwnFindings(d, ListedPaths(table, d.kind), probe))
  }

  /** The embedded collections of a document; a null field throws. */
  function EntriesFindings(table: Table, es: seq<Embedded>, probe: string -> bool): Result<seq<Finding>>
    decreases SizeEntries(es), 2, |es|
  {
    if es == [] then Success([])
    else
      var ds :- Members(es[0].value);
      MembersSmaller(es, 0);
      var first :- CollFindings(table, ds, probe);
      Prefixed(first, EntriesFindings(table, es[1..], probe))
  }

  /** `findColl`: the documents' findings, flattened in collection order. */
  function CollFindings(table: Table, ds: seq<Doc>, probe: string -> bool): Result<seq<Finding>>
    decreases SizeColl(ds), 1, |ds|
  {
    if ds == [] then Success([])
    else
      var first :- DocFindings(table, ds[0], probe);
      Prefixed(first, CollFindings(table, ds[1..], probe))
  }

  /** `Find` over the listed types, in order; a type without a world
      collection contributes nothing. `game` maps a document type to its
      world collection. */
  function RunFindings(table: Table, game: map<string, seq<Doc>>, kinds: seq<string>, probe: string -> bool): Result<seq<Finding>>
    decreases |kinds|
  {
    if kinds == [] then Success([])
    else
      var first :- if kinds[0] in game then CollFindings(table, game[kinds[0]], probe) else Success([]);
      Prefixed(first, RunFindings(table, game, kinds[1..], probe))
  }

  // ---------------------------------------------------------------------------
  // The documents a search visits

  /** The documents of a tree in the order the search finishes them: those of
      the embedded collections, then the document itself. A null embedded
      field makes the tree unreadable. */
  function Tree(d: Doc): Result<seq<Doc>>
    decreases Size(d), 0, 0
  {
    var below :- TreeEntries(d.embedded);
    Success(below + [d])
  }

  function TreeEntries(es: seq<Embedded>): Result<seq<Doc>>
    decreases SizeEntries(es), 2, |es|
  {
    if es == [] then Success([])
    else
      var ds :- Members(es[0].value);
      MembersSmaller(es, 0);
      var first :- TreeColl(ds);
      Prefixed(first, TreeEntries(es[1..]))
  }

  function TreeColl(ds: seq<Doc>): Result<seq<Doc>>
    decreases SizeColl(ds), 1, |ds|
  {
    if ds == [] then Success([])
    else
      var first :- Tree(ds[0]);
      Prefixed(first, TreeColl(ds[1..]))
  }

  /** The world collections of the listed types, in order. */
  function RunTrees(game: map<string, seq<Doc>>, kinds: seq<string>): Result<seq<Doc>>
    decreases |kinds|
  {
    if kinds == [] then Success([])
    else
      var first :- if kinds[0] in game then TreeColl(game[kinds[0]]) else Success([]);
      Prefixed(first, RunTrees(game, kinds[1..]))
  }

  /** The own findings of a list of documents, concatenated in order. */
  function OwnAll(table: Table, xs: seq<Doc>, probe: string -> bool): seq<Finding> {
    if xs == [] then [] else OwnFindings(xs[0], ListedPaths(table, xs[0].kind), probe) + OwnAll(table, xs[1..], probe)
  }

  /** The findings of the documents a search visits, if it could read them. */
  function FindingsOf(table: Table, r: Result<seq<Doc>>, probe: string -> bool): Result<seq<Finding>> {
    match r
    case Success(xs) => Success(OwnAll(table, xs, probe))
    case Failure(e) => Failure(e)
  }

  // ---------------------------------------------------------------------------
  // The macro's operations

  /** `findDoc`. */
  method FindDoc(d: Doc, table: Table, probe: string -> bool) returns (r: Result<seq<Finding>>)
    ensures r == DocFindings(table, d, probe)
    decreases Size(d), 0
  {
    var broken: seq<Finding> := [];
    assert d.embedded[0..] == d.embedded;
    PrefixedAssoc([], [], EntriesFindings(table, d.embedded, probe));
    for k := 0 to |d.embedded|
      invariant EntriesFindings(table, d.embedded, probe) == Prefixed(broken, EntriesFindings(table, d.embedded[k..], probe))
    {
      assert d.embedded[k..][1..] == d.embedded[k + 1..];
      var ds :- Members(d.embedded[k].value);
      MembersSmaller(d.embedded, k);
      var found :- FindColl(ds, table, probe);
      PrefixedAssoc(broken, found, EntriesFindings(table, d.embedded[k + 1..], probe));
      broken := broken + found;
    }
    assert d.embedded[|d.embedded|..] == [];
    PrefixedAssoc(broken, [], Success([]));
    broken := ProbeOwn(d, ListedPaths(table, d.kind), probe, broken);
    return Success(broken);
  }

  /** The path loop of `findDoc`: each broken link is pushed onto `broken`. */
  method ProbeOwn(d: Doc, paths: seq<string>, probe: string -> bool, broken: seq<Finding>) returns (broken': seq<Finding>)
    ensures broken' == broken + OwnFindings(d, paths, probe)
  {
    broken' := broken;
    for i := 0 to |paths|
      invariant broken' == broken + OwnFindings(d, paths[..i], probe)
    {
      assert paths[..i + 1][..i] == paths[..i];
      var value := Value(d, paths[i]);
      if value != "" && !probe(value) {
        broken' := broken' + [Finding(d, paths[i], value)];
      }
    }
    assert paths[..|paths|] == paths;
  }

  /** `findColl`: the documents of a collection searched in order. */
  method FindColl(ds: seq<Doc>, table: Table, probe: string -> bool) returns (r: Result<seq<Finding>>)
    ensures r == CollFindings(table, ds, probe)
    decreases SizeColl(ds), 1
  {
    var broken: seq<Finding> := [];
    assert ds[0..] == ds;
    PrefixedAssoc([], [], CollFindings(table, ds, probe));
    for j := 0 to |ds|
      invariant CollFindings(table, ds, probe) == Prefixed(broken, CollFindings(table, ds[j..], probe))
    {
      assert ds[j..][1..] == ds[j + 1..];
      ElementSmaller(ds, j);
      var found :- FindDoc(ds[j], table, probe);
      PrefixedAssoc(broken, found, CollFindings(table, ds[j + 1..], probe));
      broken := broken + found;
    }
    assert ds[|ds|..] == [];
    PrefixedAssoc(broken, [], Success([]));
    return Success(broken);
  }

  /** `Find`: the world collection of every type of the table, in table order;
      the macro runs it on `PropertyTable`. */
  method Find(table: Table, game: map<string, seq<Doc>>, probe: string -> bool) returns (r: Result<seq<Finding>>)
    ensures r == RunFindings(table, game, KeysOf(table), probe)
  {
    var kinds := KeysOf(table);
    var broken: seq<Finding> := [];
    assert kinds[0..] == kinds;
    PrefixedAssoc([], [], RunFindings(table, game, kinds, probe));
    for i := 0 to |kinds|
      invariant RunFindings(table, game, kinds, probe) == Prefixed(broken, RunFindings(table, game, kinds[i..], probe))
    {
      assert kinds[i..][1..] == kinds[i + 1..];
      if kinds[i] !in game {
        PrefixedAssoc(broken, [], RunFindings(table, game, kinds[i + 1..], probe));
        continue;
      }
      var found :- FindColl(game[kinds[i]], table, probe);
      PrefixedAssoc(broken, found, RunFindings(table, game, kinds[i + 1..], probe));
      broken := broken + found;
    }
    assert kinds[|kinds|..] == [];
    PrefixedAssoc(broken, [], Success([]));
    return Success(broken);
  }

  // ---------------------------------------------------------------------------
  // Properties

  /** A document's own findings are exactly its listed paths holding a broken
      link, each with the link found there. */
  lemma {:induction false} OwnFindingsExact(d: Doc, paths: seq<string>, probe: string -> bool, f: Finding)
    ensures f in OwnFindings(d, paths, probe) <==>
      f.doc == d && f.path in paths && IsBroken(d, f.path, probe) && f.value == Value(d, f.path)
    decreases |paths|
  {
    if paths != [] {
      var init, last := paths[..|paths| - 1], paths[|paths| - 1];
      OwnFindingsExact(d, init, probe, f);
      assert f.path in paths <==> f.path in init || f.path == last by {
        assert paths == init + [last];
      }
    }
  }

  lemma {:induction false} OwnAllConcat(table: Table, a: seq<Doc>, b: seq<Doc>, probe: string -> bool)
    ensures OwnAll(table, a + b, probe) == OwnAll(table, a, probe) + OwnAll(table, b, probe)
    decreases |a|
  {
    if a == [] {
      assert a + b == b;
    } else {
      assert (a + b)[1..] == a[1..] + b;
      OwnAllConcat(table, a[1..], b, probe);
    }
  }

  /** The own findings of a list of documents are exactly the broken links at
      the listed paths of its documents. */
  lemma {:induction false} OwnAllExact(table: Table, xs: seq<Doc>, probe: string -> bool, f: Finding)
    ensures f in OwnAll(table, xs, probe) <==>
      f.doc in xs && f.path in ListedPaths(table, f.doc.kind) && IsBroken(f.doc, f.path, probe) && f.value == Value(f.doc, f.path)
    decreases |xs|
  {
    if xs != [] {
      OwnFindingsExact(xs[0], ListedPaths(table, xs[0].kind), probe, f);
      OwnAllExact(table, xs[1..], probe, f);
      assert f.doc in xs <==> f.doc == xs[0] || f.doc in xs[1..] by {
        assert xs == [xs[0]] + xs[1..];
      }
    }
  }

  lemma FindingsOfConcat(table: Table, a: seq<Doc>, r: Result<seq<Doc>>, probe: string -> bool)
    ensures FindingsOf(table, Prefixed(a, r), probe) == Prefixed(OwnAll(table, a, probe), FindingsOf(table, r, probe))
  {
    if r.Success? {
      OwnAllConcat(table, a, r.value, probe);
    }
  }

  /** A search finds, in order, the own findings of the documents it visits:
      every embedded document before its owner, collections in order. It
      throws exactly when some visited document has a null embedded field. */
  lemma {:induction false} DocFindingsByTree(table: Table, d: Doc, probe: string -> bool)
    ensures DocFindings(table, d, probe) == FindingsOf(table, Tree(d), probe)
    decreases Size(d), 0, 0
  {
    EntriesFindingsByTree(table, d.embedded, probe);
    if TreeEntries(d.embedded).Success? {
      var below := TreeEntries(d.embedded).value;
      OwnAllConcat(table, below, [d], probe);
      assert OwnAll(table, [d], probe) == OwnFindings(d, ListedPaths(table, d.kind), probe) by {
        assert [d][1..] == [];
      }
    }
  }

  lemma {:induction false} EntriesFindingsByTree(table: Table, es: seq<Embedded>, probe: string -> bool)
    ensures EntriesFindings(table, es, probe) == FindingsOf(table, TreeEntries(es), probe)
    decreases SizeEntries(es), 2, |es|
  {
    if es != [] && Members(es[0].value).Success? {
      var ds := Members(es[0].value).value;
      MembersSmaller(es, 0);
      CollFindingsByTree(table, ds, probe);
      EntriesFindingsByTree(table, es[1..], probe);
      if TreeColl(ds).Success? {
        FindingsOfConcat(table, TreeColl(ds).value, TreeEntries(es[1..]), probe);
      }
    }
  }

  lemma {:induction false} CollFindingsByTree(table: Table, ds: seq<Doc>, probe: string -> bool)
    ensures CollFindings(table, ds, probe) == FindingsOf(table, TreeColl(ds), probe)
    decreases SizeColl(ds), 1, |ds|
  {
    if ds != [] {
      DocFindingsByTree(table, ds[0], probe);
      CollFindingsByTree(table, ds[1..], probe);
      if Tree(ds[0]).Success? {
        FindingsOfConcat(table, Tree(ds[0]).value, TreeColl(ds[1..]), probe);
      }
    }
  }

  /** A whole run finds, in order, the own findings of every document of the
      world collections of the listed types. */
  lemma {:induction false} RunFindingsByTree(table: Table, game: map<string, seq<Doc>>, kinds: seq<string>, probe: string -> bool)
    ensures RunFindings(table, game, kinds, probe) == FindingsOf(table, RunTrees(game, kinds), probe)
    decreases |kinds|
  {
    if kinds != [] {
      RunFindingsByTree(table, game, kinds[1..], probe);
      if kinds[0] in game {
        CollFindingsByTree(table, game[kinds[0]], probe);
        if TreeColl(game[kinds[0]]).Success? {
          FindingsOfConcat(table, TreeColl(game[kinds[0]]).value, RunTrees(game, kinds[1..]), probe);
        }
      } else {
        FindingsOfConcat(table, [], RunTrees(game, kinds[1..]), probe);
      }
    }
  }

  /** `findDoc` reports a finding exactly for each listed path, of each
      document in the tree, holding a non-empty link that fails the probe; it
      fails only on a tree with a null embedded field. */
  lemma FindDocExact(table: Table, d: Doc, probe: string -> bool, f: Finding)
    ensures DocFindings(table, d, probe).Success? <==> Tree(d).Success?
    ensures DocFindings(table, d, probe).Success? ==>
      (f in DocFindings(table, d, probe).value <==>
        f.doc in Tree(d).value && f.path in ListedPaths(table, f.doc.kind) && IsBroken(f.doc, f.path, probe) && f.value == Value(f.doc, f.path))
  {
    DocFindingsByTree(table, d, probe);
    if Tree(d).Success? {
      OwnAllExact(table, Tree(d).value, probe, f);
    }
  }

  /** The same for a whole run of `Find`. */
  lemma RunExact(table: Table, game: map<string, seq<Doc>>, kinds: seq<string>, probe: string -> bool, f: Finding)
    ensures RunFindings(table, game, kinds, probe).Success? <==> RunTrees(game, kinds).Success?
    ensures RunFindings(table, game, kinds, probe).Success? ==>
      (f in RunFindings(table, game, kinds, probe).value <==>
        f.doc in RunTrees(game, kinds).value && f.path in ListedPaths(table, f.doc.kind) && IsBroken(f.doc, f.path, probe) && f.value == Value(f.doc, f.path))
  {
    RunFindingsByTree(table, game, kinds, probe);
    if RunTrees(game, kinds).Success? {
      OwnAllExact(table, RunTrees(game, kinds).value, probe, f);
    }
  }

  /** A document of a type the table does not list reports nothing of its
      own, yet its embedded collections are still searched. */
  lemma UnlistedTypeSearchesEmbedded(table: Table, d: Doc, probe: string -> bool)
    requires d.kind !in KeysOf(table)
    ensures DocFindings(table, d, probe) == EntriesFindings(table, d.embedded, probe)
  {
    if EntriesFindings(table, d.embedded, probe).Success? {
      assert EntriesFindings(table, d.embedded, probe).value + [] == EntriesFindings(table, d.embedded, probe).value;
    }
  }

  /** The tree of a document ends with the document itself, after every
      document embedded in it. */
  lemma TreeEndsWithRoot(d: Doc)
    ensures Tree(d).Success? ==> |Tree(d).value| >= 1 && Tree(d).value[|Tree(d).value| - 1] == d
  {
  }
}
