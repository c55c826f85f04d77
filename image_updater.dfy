/** The image updater's traversal: every document of every ticked type, and
    every document of every ticked embedded class within it, has its
    image-path properties passed through the rewrite rule; each document with
    a rewritten path yields one update record.

    The writes themselves (`updateEmbeddedDocuments`, `updateDocuments`) are
    disabled in the macro: each batch is only logged. A run is therefore
    described by the batches it would log, in depth-first order. */
module ImageUpdater {
  import opened Documents
  import opened ImageLinks

  /** One document's update: `_id` and the new link of every changed path. */
  datatype Update = Update(id: string, changes: map<string, string>)

  /** Where a batch would be written: an embedded field of a document, or a
      top-level world collection of a document type. */
  datatype Target = EmbeddedIn(ownerId: string, field: string) | WorldCollection(kind: string)

  datatype Batch = Batch(target: Target, updates: seq<Update>)

  /** What updating a document or a collection gives: the batches logged on the
      way, and the update records returned. */
  datatype Plan = Plan(log: seq<Batch>, updates: seq<Update>)

  /** A batch is logged only when it holds some update. */
  function Logged(t: Target, updates: seq<Update>): seq<Batch> {
    if updates == [] then [] else [Batch(t, updates)]
  }

  function PrefixedPlan(done: Plan, r: Result<Plan>): Result<Plan> {
    match r
    case Success(rest) => Success(Plan(done.log + rest.log, done.updates + rest.updates))
    case Failure(e) => Failure(e)
  }

  // ---------------------------------------------------------------------------
  // The specification of one run, as functions

  /** The changes collected by `setProperty` over the listed paths, in order. */
  function Changes(p: Params, d: Doc, paths: seq<string>, probe: string -> bool): map<string, string>
    decreases |paths|
  {
    if paths == [] then map[]
    else
      var m := Changes(p, d, paths[..|paths| - 1], probe);
      var path := paths[|paths| - 1];
      match NewLink(p, Value(d, path), probe)
      case None => m
      case Some(l) => m[path := l]
  }

  /** What `doDocUpdate` returns for the document itself: `[]` when no path
      changed, else the update record. A type missing from the table throws. */
  function OwnUpdate(p: Params, table: Table, d: Doc, probe: string -> bool): Result<seq<Update>> {
    match Lookup(table, d.kind)
    case None => Failure(TypeError)
    case Some(paths) =>
      var ch := Changes(p, d, paths, probe);
      Success(if ch == map[] then [] else [Update(d.id, ch)])
  }

  function DocPlan(p: Params, table: Table, d: Doc, probe: string -> bool): Result<Plan>
    decreases Size(d), 0, 0
  {
    var log :- EntriesLog(p, table, d.id, d.embedded, probe);
    var own :- OwnUpdate(p, table, d, probe);
    Success(Plan(log, own))
  }

  /** One embedded collection of a document; that of an unticked class is
      skipped without being read. */
  function EntryLog(p: Params, table: Table, ownerId: string, e: Embedded, probe: string -> bool): Result<seq<Batch>>
    decreases SizeValue(e.value), 2, 0
  {
    if e.cls !in p.change then Success([])
    else
      var ds :- Members(e.value);
      MembersSize(e.value);
      var col :- ColPlan(p, table, ds, probe);
      Success(col.log + Logged(EmbeddedIn(ownerId, e.field), col.updates))
  }

  /** The embedded collections of a document, in metadata order. */
  function EntriesLog(p: Params, table: Table, ownerId: string, es: seq<Embedded>, probe: string -> bool): Result<seq<Batch>>
    decreases SizeEntries(es), 3, |es|
  {
    if es == [] then Success([])
    else
      var first :- EntryLog(p, table, ownerId, es[0], probe);
      Prefixed(first, EntriesLog(p, table, ownerId, es[1..], probe))
  }

  /** A collection: the documents in order, their updates flattened. */
  function ColPlan(p: Params, table: Table, ds: seq<Doc>, probe: string -> bool): Result<Plan>
    decreases SizeColl(ds), 1, |ds|
  {
    if ds == [] then Success(Plan([], []))
    else
      ElementSmaller(ds, 0);
      var first :- DocPlan(p, table, ds[0], probe);
      PrefixedPlan(first, ColPlan(p, table, ds[1..], probe))
  }

  /** The world collection of one document type; skipped when the type is
      unticked or the world has no such collection. */
  function KindLog(p: Params, table: Table, game: map<string, seq<Doc>>, k: string, probe: string -> bool): Result<seq<Batch>> {
    if k !in p.change || k !in game then Success([])
    else
      var col :- ColPlan(p, table, game[k], probe);
      Success(col.log + Logged(WorldCollection(k), col.updates))
  }

  /** A whole run over the world collections of the listed types, in order. */
  function RunLog(p: Params, table: Table, game: map<string, seq<Doc>>, kinds: seq<string>, probe: string -> bool): Result<seq<Batch>>
    decreases |kinds|
  {
    if kinds == [] then Success([])
    else
      var first :- KindLog(p, table, game, kinds[0], probe);
      Prefixed(first, RunLog(p, table, game, kinds[1..], probe))
  }

  lemma PrefixedPlanAssoc(a: Plan, b: Plan, r: Result<Plan>)
    ensures PrefixedPlan(a, PrefixedPlan(b, r)) == PrefixedPlan(Plan(a.log + b.log, a.updates + b.updates), r)
    ensures PrefixedPlan(Plan([], []), r) == r
    ensures PrefixedPlan(a, Success(Plan([], []))) == Success(a)
  {
    assert a.log + [] == a.log && a.updates + [] == a.updates;
    if r.Success? {
      assert a.log + (b.log + r.value.log) == (a.log + b.log) + r.value.log;
      assert a.updates + (b.updates + r.value.updates) == (a.updates + b.updates) + r.value.updates;
      assert [] + r.value.log == r.value.log && [] + r.value.updates == r.value.updates;
    }
  }

  // ---------------------------------------------------------------------------
  // The macro's operations

  /** `doDocUpdate`: the embedded collections of ticked classes first, then the
      document's own paths. */
  method DocUpdate(d: Doc, p: Params, table: Table, probe: string -> bool) returns (r: Result<Plan>)
    ensures r == DocPlan(p, table, d, probe)
    decreases Size(d), 0
  {
    var log: seq<Batch> := [];
    assert d.embedded[0..] == d.embedded;
    PrefixedAssoc([], [], EntriesLog(p, table, d.id, d.embedded, probe));
    for k := 0 to |d.embedded|
      invariant EntriesLog(p, table, d.id, d.embedded, probe) == Prefixed(log, EntriesLog(p, table, d.id, d.embedded[k..], probe))
    {
      assert d.embedded[k..][1..] == d.embedded[k + 1..];
      var e := d.embedded[k];
      if e.cls !in p.change {
        PrefixedAssoc(log, [], EntriesLog(p, table, d.id, d.embedded[k + 1..], probe));
        continue;
      }
      var ds :- Members(e.value);
      MembersSmaller(d.embedded, k);
      var col :- ColUpdate(ds, p, table, probe);
      PrefixedAssoc(log, col.log + Logged(EmbeddedIn(d.id, e.field), col.updates), EntriesLog(p, table, d.id, d.embedded[k + 1..], probe));
      log := log + (col.log + Logged(EmbeddedIn(d.id, e.field), col.updates));
    }
    assert d.embedded[|d.embedded|..] == [];
    PrefixedAssoc(log, [], Success([]));
    var listed := Lookup(table, d.kind);
    if listed.None? {
      return Failure(TypeError);
    }
    var update := CollectChanges(p, d, listed.value, probe);
    if update != map[] {
      r := Success(Plan(log, [Update(d.id, update)]));
    } else {
      r := Success(Plan(log, []));
    }
  }

  /** The path loop of `doDocUpdate`: the update object `setProperty` fills
      for the listed paths. */
  method CollectChanges(p: Params, d: Doc, paths: seq<string>, probe: string -> bool) returns (update: map<string, string>)
    ensures update == Changes(p, d, paths, probe)
  {
    update := map[];
    for i := 0 to |paths|
      invariant update == Changes(p, d, paths[..i], probe)
    {
      assert paths[..i + 1][..i] == paths[..i];
      var link := RewriteLink(p, Value(d, paths[i]), probe);
      if link.Some? {
        update := update[paths[i] := link.value];
      }
    }
    assert paths[..|paths|] == paths;
  }

  /** `doColUpdate`: every document of the collection, updates flattened. */
  method ColUpdate(ds: seq<Doc>, p: Params, table: Table, probe: string -> bool) returns (r: Result<Plan>)
    ensures r == ColPlan(p, table, ds, probe)
    decreases SizeColl(ds), 1
  {
    var log: seq<Batch> := [];
    var updates: seq<Update> := [];
    assert ds[0..] == ds;
    PrefixedPlanAssoc(Plan([], []), Plan([], []), ColPlan(p, table, ds, probe));
    for j := 0 to |ds|
      invariant ColPlan(p, table, ds, probe) == PrefixedPlan(Plan(log, updates), ColPlan(p, table, ds[j..], probe))
    {
      assert ds[j..][1..] == ds[j + 1..];
      ElementSmaller(ds, j);
      var one :- DocUpdate(ds[j], p, table, probe);
      PrefixedPlanAssoc(Plan(log, updates), one, ColPlan(p, table, ds[j + 1..], probe));
      log, updates := log + one.log, updates + one.updates;
    }
    assert ds[|ds|..] == [];
    PrefixedPlanAssoc(Plan(log, updates), Plan([], []), Success(Plan([], [])));
    return Success(Plan(log, updates));
  }

  /** `doRename`: the world collection of every ticked type of the table, in
      table order; the macro runs it on `PropertyTable`. `game` maps a document
      type to its world collection. */
  method Rename(p: Params, table: Table, game: map<string, seq<Doc>>, probe: string -> bool) returns (r: Result<seq<Batch>>)
    ensures r == RunLog(p, table, game, KeysOf(table), probe)
  {
    var kinds := KeysOf(table);
    var log: seq<Batch> := [];
    assert kinds[0..] == kinds;
    PrefixedAssoc([], [], RunLog(p, table, game, kinds, probe));
    for i := 0 to |kinds|
      invariant RunLog(p, table, game, kinds, probe) == Prefixed(log, RunLog(p, table, game, kinds[i..], probe))
    {
      assert kinds[i..][1..] == kinds[i + 1..];
      var k := kinds[i];
      if k !in p.change || k !in game {
        PrefixedAssoc(log, [], RunLog(p, table, game, kinds[i + 1..], probe));
        continue;
      }
      var col :- ColUpdate(game[k], p, table, probe);
      PrefixedAssoc(log, col.log + Logged(WorldCollection(k), col.updates), RunLog(p, table, game, kinds[i + 1..], probe));
      log := log + (col.log + Logged(WorldCollection(k), col.updates));
    }
    assert kinds[|kinds|..] == [];
    PrefixedAssoc(log, [], Success([]));
    return Success(log);
  }

  // ---------------------------------------------------------------------------
  // Properties

  /** The collected changes are exactly the listed paths whose link the
      rewrite rule replaces. */
  lemma {:induction false} ChangesExact(p: Params, d: Doc, paths: seq<string>, probe: string -> bool, path: string)
    ensures path in Changes(p, d, paths, probe) <==> path in paths && NewLink(p, Value(d, path), probe).Some?
    decreases |paths|
  {
    if paths != [] {
      var init, last := paths[..|paths| - 1], paths[|paths| - 1];
      ChangesExact(p, d, init, probe, path);
      assert path in paths <==> path in init || path == last by {
        assert paths == init + [last];
      }
    }
  }

  /** Each collected change maps its path to the rule's new link. */
  lemma {:induction false} ChangesAreNewLinks(p: Params, d: Doc, paths: seq<string>, probe: string -> bool, path: string)
    requires path in Changes(p, d, paths, probe)
    ensures NewLink(p, Value(d, path), probe) == Some(Changes(p, d, paths, probe)[path])
    decreases |paths|
  {
    var init, last := paths[..|paths| - 1], paths[|paths| - 1];
    if path != last || NewLink(p, Value(d, last), probe).None? {
      ChangesAreNewLinks(p, d, init, probe, path);
    }
  }

  /** `doDocUpdate`'s own result: it throws only for a type missing from the
      table; it is `[]` exactly when no listed path is rewritten; otherwise it
      is one record carrying the document's id and exactly the rewritten paths. */
  lemma OwnUpdateExact(p: Params, table: Table, d: Doc, probe: string -> bool)
    ensures OwnUpdate(p, table, d, probe).Failure? <==> d.kind !in KeysOf(table)
    ensures OwnUpdate(p, table, d, probe) == Success([]) <==>
      d.kind in KeysOf(table) && forall path | path in Lookup(table, d.kind).value :: NewLink(p, Value(d, path), probe).None?
    ensures OwnUpdate(p, table, d, probe).Success? && OwnUpdate(p, table, d, probe).value != [] ==>
      var us := OwnUpdate(p, table, d, probe).value;
      && |us| == 1
      && us[0].id == d.id
      && forall path :: path in us[0].changes <==> path in Lookup(table, d.kind).value && NewLink(p, Value(d, path), probe).Some?
  {
    if d.kind in KeysOf(table) {
      var paths := Lookup(table, d.kind).value;
      var ch := Changes(p, d, paths, probe);
      forall path ensures path in ch <==> path in paths && NewLink(p, Value(d, path), probe).Some? {
        ChangesExact(p, d, paths, probe, path);
      }
      if ch != map[] {
        var path :| path in ch;
        assert path in paths && NewLink(p, Value(d, path), probe).Some?;
      }
    }
  }

  /** Every link an update record sets passes the probe. */
  predicate UpdatesProbed(us: seq<Update>, probe: string -> bool) {
    forall i, path | 0 <= i < |us| && path in us[i].changes :: probe(us[i].changes[path])
  }

  predicate LogProbed(log: seq<Batch>, probe: string -> bool) {
    forall i | 0 <= i < |log| :: UpdatesProbed(log[i].updates, probe)
  }

  lemma ProbedConcat(a: seq<Update>, b: seq<Update>, probe: string -> bool)
    requires UpdatesProbed(a, probe) && UpdatesProbed(b, probe)
    ensures UpdatesProbed(a + b, probe)
  {
    forall i, path | 0 <= i < |a + b| && path in (a + b)[i].changes ensures probe((a + b)[i].changes[path]) {
      if i >= |a| { assert (a + b)[i] == b[i - |a|]; }
    }
  }

  /** No run produces a broken link: every link in every returned update and
      in every logged batch of a document's plan passes the probe. */
  lemma {:induction false} DocPlanProbed(p: Params, table: Table, d: Doc, probe: string -> bool)
    ensures DocPlan(p, table, d, probe).Success? ==>
      UpdatesProbed(DocPlan(p, table, d, probe).value.updates, probe) && LogProbed(DocPlan(p, table, d, probe).value.log, probe)
    decreases Size(d), 0, 0
  {
    EntriesLogProbed(p, table, d.id, d.embedded, probe);
    if Lookup(table, d.kind).Some? {
      var paths := Lookup(table, d.kind).value;
      var ch := Changes(p, d, paths, probe);
      forall path | path in ch ensures probe(ch[path]) {
        ChangesExact(p, d, paths, probe, path);
        ChangesAreNewLinks(p, d, paths, probe, path);
        RewriteOnlyImproves(p, Value(d, path), probe);
      }
    }
  }

  lemma {:induction false} EntriesLogProbed(p: Params, table: Table, ownerId: string, es: seq<Embedded>, probe: string -> bool)
    ensures EntriesLog(p, table, ownerId, es, probe).Success? ==> LogProbed(EntriesLog(p, table, ownerId, es, probe).value, probe)
    decreases SizeEntries(es), 2, |es|
  {
    if es != [] && EntriesLog(p, table, ownerId, es, probe).Success? {
      EntriesLogProbed(p, table, ownerId, es[1..], probe);
      if es[0].cls in p.change {
        var ds := Members(es[0].value).value;
        MembersSmaller(es, 0);
        ColPlanProbed(p, table, ds, probe);
      }
    }
  }

  lemma {:induction false} ColPlanProbed(p: Params, table: Table, ds: seq<Doc>, probe: string -> bool)
    ensures ColPlan(p, table, ds, probe).Success? ==>
      UpdatesProbed(ColPlan(p, table, ds, probe).value.updates, probe) && LogProbed(ColPlan(p, table, ds, probe).value.log, probe)
    decreases SizeColl(ds), 1, |ds|
  {
    if ds != [] && ColPlan(p, table, ds, probe).Success? {
      ElementSmaller(ds, 0);
      DocPlanProbed(p, table, ds[0], probe);
      ColPlanProbed(p, table, ds[1..], probe);
      ProbedConcat(DocPlan(p, table, ds[0], probe).value.updates, ColPlan(p, table, ds[1..], probe).value.updates, probe);
    }
  }

  /** A whole run logs no broken link. */
  lemma {:induction false} RunProbed(p: Params, table: Table, game: map<string, seq<Doc>>, kinds: seq<string>, probe: string -> bool)
    ensures RunLog(p, table, game, kinds, probe).Success? ==> LogProbed(RunLog(p, table, game, kinds, probe).value, probe)
    decreases |kinds|
  {
    if kinds != [] && RunLog(p, table, game, kinds, probe).Success? {
      RunProbed(p, table, game, kinds[1..], probe);
      if kinds[0] in p.change && kinds[0] in game {
        ColPlanProbed(p, table, game[kinds[0]], probe);
      }
    }
  }

  /** The ids of a collection's documents. */
  function Ids(ds: seq<Doc>): set<string> {
    set d | d in ds :: d.id
  }

  /** `flat()` keeps one record per changed document: a collection yields at
      most one update per document, and each carries the id of one of its
      documents and a non-empty set of changes. */
  lemma {:induction false} ColUpdatesFromDocs(p: Params, table: Table, ds: seq<Doc>, probe: string -> bool)
    ensures ColPlan(p, table, ds, probe).Success? ==>
      var us := ColPlan(p, table, ds, probe).value.updates;
      && |us| <= |ds|
      && forall u | u in us :: u.changes != map[] && u.id in Ids(ds)
    decreases |ds|
  {
    if ds != [] && ColPlan(p, table, ds, probe).Success? {
      ColUpdatesFromDocs(p, table, ds[1..], probe);
      var own := DocPlan(p, table, ds[0], probe).value.updates;
      var rest := ColPlan(p, table, ds[1..], probe).value.updates;
      assert ColPlan(p, table, ds, probe).value.updates == own + rest;
      assert Ids(ds[1..]) <= Ids(ds) by {
        forall d | d in ds[1..] ensures d in ds { }
      }
    }
  }

  /** Two lists of embedded entries that differ only in what unticked classes
      hold. */
  predicate SameTickedEntries(p: Params, es: seq<Embedded>, es': seq<Embedded>) {
    && |es| == |es'|
    && forall i | 0 <= i < |es| ::
         es[i].cls == es'[i].cls && es[i].field == es'[i].field
         && (es[i].cls in p.change ==> es[i].value == es'[i].value)
  }

  /** Embedded classes whose checkbox is off are not processed at all: what
      they hold, even null, does not change the outcome. */
  lemma {:induction false} UntickedClassesIgnored(p: Params, table: Table, ownerId: string, es: seq<Embedded>, es': seq<Embedded>, probe: string -> bool)
    requires SameTickedEntries(p, es, es')
    ensures EntriesLog(p, table, ownerId, es, probe) == EntriesLog(p, table, ownerId, es', probe)
    decreases |es|
  {
    if es != [] {
      assert SameTickedEntries(p, es[1..], es'[1..]);
      UntickedClassesIgnored(p, table, ownerId, es[1..], es'[1..], probe);
    }
  }

  /** Document types whose checkbox is off are not processed at all: their
      world collections do not change the outcome of a run. */
  lemma {:induction false} UntickedTypesIgnored(p: Params, table: Table, game: map<string, seq<Doc>>, game': map<string, seq<Doc>>, kinds: seq<string>, probe: string -> bool)
    requires forall k | k in p.change :: (k in game <==> k in game') && (k in game ==> game[k] == game'[k])
    ensures RunLog(p, table, game, kinds, probe) == RunLog(p, table, game', kinds, probe)
    decreases |kinds|
  {
    if kinds != [] {
      UntickedTypesIgnored(p, table, game, game', kinds[1..], probe);
    }
  }

  // ---------------------------------------------------------------------------
  // The checkbox table of the dialog

  /** One table row of the dialog: a left checkbox and, unless the list ran
      out, a right one. Each cell is named by its document type. */
  datatype CheckRow = CheckRow(left: string, right: Option<string>)

  /** `checkBoxes`: the checkboxes two per row, in order. */
  method CheckBoxes(names: seq<string>) returns (rows: seq<CheckRow>)
    ensures |rows| == (|names| + 1) / 2
    ensures forall k | 0 <= k < |rows| ::
      && rows[k].left == names[2 * k]
      && rows[k].right == (if 2 * k + 1 < |names| then Some(names[2 * k + 1]) else None)
  {
    rows := [];
    var i := 0;
    while i < |names|
      invariant i == 2 * |rows| && i <= |names| + 1
      invariant forall k | 0 <= k < |rows| ::
        && rows[k].left == names[2 * k]
        && rows[k].right == (if 2 * k + 1 < |names| then Some(names[2 * k + 1]) else None)
    {
      var right := if i + 1 < |names| then Some(names[i + 1]) else None;
      rows := rows + [CheckRow(names[i], right)];
      i := i + 2;
    }
  }

  /** The cells of the rows, read left to right and top to bottom. */
  function Cells(rows: seq<CheckRow>): seq<string> {
    if rows == [] then []
    else [rows[0].left] + (if rows[0].right.Some? then [rows[0].right.value] else []) + Cells(rows[1..])
  }

  /** Rows shaped as `checkBoxes` builds them hold every name exactly once, in
      order. */
  lemma {:induction false} CheckBoxesCoverNames(names: seq<string>, rows: seq<CheckRow>)
    requires |rows| == (|names| + 1) / 2
    requires forall k | 0 <= k < |rows| ::
      && rows[k].left == names[2 * k]
      && rows[k].right == (if 2 * k + 1 < |names| then Some(names[2 * k + 1]) else None)
    ensures Cells(rows) == names
    decreases |rows|
  {
    if rows != [] {
      if |names| == 1 {
        assert rows[1..] == [];
      } else {
        var rest := names[2..];
        assert forall k | 0 <= k < |rows| - 1 :: rows[1..][k] == rows[k + 1];
        CheckBoxesCoverNames(rest, rows[1..]);
        assert names == [names[0], names[1]] + rest;
      }
    }
  }
}
