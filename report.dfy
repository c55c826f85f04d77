/** The broken-link report: the findings split into sections by document type
    and path, each section a header row followed by one row per finding, the
    tokens gathered into folders of equal actor name and link. Rows are kept
    as records; their HTML markup is not modelled. */
module Report {
  import opened Documents
  import opened BrokenLinks
  import opened Grouping

  /** The sheet a row's name link opens. */
  datatype Click = ShowSheet | ShowProto

  /** Whose name a row shows: the document's own, or its parent's. */
  datatype NameSource = DocName | ParentName

  /** How `docLink` renders a finding in a section. */
  datatype Style = Style(click: Click, icon: string, shown: NameSource)

  /** The key tokens are grouped by: the base actor's name and the link. */
  datatype GroupKey = GroupKey(name: string, value: string)

  datatype Row =
    | Preamble                                              // the script, the style and `<table>`
    | Header(name: string, link: Option<string>)            // a section header
    | DocRow(style: Style, finding: Finding)                // `docLink`
    | Folder(key: GroupKey, ids: seq<string>, path: string) // a folder of several tokens
    | TokenRow(finding: Finding, nested: bool)              // `tokenLink`
    | OtherRow(finding: Finding)                            // a leftover finding
    | TableEnd                                              // `</table>`

  /** The findings a row shows. */
  function RowFindings(r: Row): seq<Finding> {
    match r
    case DocRow(_, f) => [f]
    case TokenRow(f, _) => [f]
    case OtherRow(f) => [f]
    case _ => []
  }

  /** The findings rows show, in row order. */
  function Reported(rows: seq<Row>): seq<Finding> {
    if rows == [] then [] else RowFindings(rows[0]) + Reported(rows[1..])
  }

  lemma {:induction false} ReportedConcat(a: seq<Row>, b: seq<Row>)
    ensures Reported(a + b) == Reported(a) + Reported(b)
    decreases |a|
  {
    if a == [] {
      assert a + b == b;
    } else {
      assert (a + b)[1..] == a[1..] + b;
      ReportedConcat(a[1..], b);
    }
  }

  // ---------------------------------------------------------------------------
  // The sections of the report

  datatype SectionId = ActorPortrait | ActorPrototype | Tokens | Scenes | Tiles | Items | Other

  /** The filter that selects each section's findings. */
  predicate InSection(s: SectionId, f: Finding) {
    match s
    case ActorPortrait => f.doc.kind == "Actor" && f.path == "img"
    case ActorPrototype => f.doc.kind == "Actor" && f.path != "img"
    case Tokens => f.doc.kind == "Token"
    case Scenes => f.doc.kind == "Scene"
    case Tiles => f.doc.kind == "Tile"
    case Items => f.doc.kind == "Item"
    case Other => f.doc.kind !in ["Actor", "Token", "Scene", "Item", "Tile"]
  }

  /** `broken.filter(...)`: a section's findings, in order. */
  function Select(broken: seq<Finding>, s: SectionId): seq<Finding> {
    if broken == [] then []
    else (if InSection(s, broken[0]) then [broken[0]] else []) + Select(broken[1..], s)
  }

  /** The section a finding belongs to, read off its type and path. */
  function SectionOf(f: Finding): SectionId {
    match f.doc.kind
    case "Actor" => if f.path == "img" then ActorPortrait else ActorPrototype
    case "Token" => Tokens
    case "Scene" => Scenes
    case "Tile" => Tiles
    case "Item" => Items
    case _ => Other
  }

  /** The section filters are disjoint and cover every finding. */
  lemma ExactlyOneSection(f: Finding, s: SectionId)
    ensures InSection(s, f) <==> s == SectionOf(f)
  {
    if s == Other {
      assert f.doc.kind in ["Actor", "Token", "Scene", "Item", "Tile"] <==>
        f.doc.kind == "Actor" || f.doc.kind == "Token" || f.doc.kind == "Scene" || f.doc.kind == "Item" || f.doc.kind == "Tile";
    }
  }

  /** A section holds exactly the findings of its filter. */
  lemma {:induction false} SelectExact(broken: seq<Finding>, s: SectionId, f: Finding)
    ensures f in Select(broken, s) <==> f in broken && InSection(s, f)
    decreases |broken|
  {
    if broken != [] {
      SelectExact(broken[1..], s, f);
      assert f in broken <==> f == broken[0] || f in broken[1..] by {
        assert broken == [broken[0]] + broken[1..];
      }
    }
  }

  function AllSections(broken: seq<Finding>): multiset<Finding> {
    multiset(Select(broken, ActorPortrait)) + multiset(Select(broken, ActorPrototype)) + multiset(Select(broken, Tokens))
    + multiset(Select(broken, Scenes)) + multiset(Select(broken, Tiles)) + multiset(Select(broken, Items))
    + multiset(Select(broken, Other))
  }

  /** A section holds each finding of its own as often as `broken` does, and
      no other. */
  lemma {:induction false} SelectCount(broken: seq<Finding>, s: SectionId, f: Finding)
    ensures multiset(Select(broken, s))[f] == if s == SectionOf(f) then multiset(broken)[f] else 0
    decreases |broken|
  {
    if broken != [] {
      SelectCount(broken[1..], s, f);
      ExactlyOneSection(broken[0], s);
      assert broken == [broken[0]] + broken[1..];
    }
  }

  /** The sections together hold every finding exactly as often as `broken`. */
  lemma SectionsPartition(broken: seq<Finding>)
    ensures AllSections(broken) == multiset(broken)
  {
    forall f ensures AllSections(broken)[f] == multiset(broken)[f] {
      SelectCount(broken, ActorPortrait, f);
      SelectCount(broken, ActorPrototype, f);
      SelectCount(broken, Tokens, f);
      SelectCount(broken, Scenes, f);
      SelectCount(broken, Tiles, f);
      SelectCount(broken, Items, f);
      SelectCount(broken, Other, f);
    }
  }

  // ---------------------------------------------------------------------------
  // The rows of a section

  /** One `docLink` row per finding, in order. */
  function DocRows(style: Style, docs: seq<Finding>): (rows: seq<Row>)
    ensures |rows| == |docs|
    ensures forall i | 0 <= i < |docs| :: rows[i] == DocRow(style, docs[i])
  {
    if docs == [] then [] else [DocRow(style, docs[0])] + DocRows(style, docs[1..])
  }

  /** One `tokenLink` row per token, in order. */
  function TokenRows(tokens: seq<Finding>, nested: bool): (rows: seq<Row>)
    ensures |rows| == |tokens|
    ensures forall i | 0 <= i < |tokens| :: rows[i] == TokenRow(tokens[i], nested)
  {
    if tokens == [] then [] else [TokenRow(tokens[0], nested)] + TokenRows(tokens[1..], nested)
  }

  /** One leftover row per finding, in order. */
  function OtherRows(docs: seq<Finding>): (rows: seq<Row>)
    ensures |rows| == |docs|
    ensures forall i | 0 <= i < |docs| :: rows[i] == OtherRow(docs[i])
  {
    if docs == [] then [] else [OtherRow(docs[0])] + OtherRows(docs[1..])
  }

  /** `section`: nothing for no findings, else a header and one row each. */
  function SectionRows(docs: seq<Finding>, name: string, link: string, style: Style): (rows: seq<Row>)
    ensures docs == [] <==> rows == []
    ensures docs != [] ==> |rows| == |docs| + 1 && rows[0] == Header(name, Some(link))
  {
    if docs == [] then [] else [Header(name, Some(link))] + DocRows(style, docs)
  }

  /** The leftover rows: a header without link, one row each, then
      `</table>`; nothing at all when there is no leftover. */
  function LeftoverRows(docs: seq<Finding>): (rows: seq<Row>)
    ensures docs == [] <==> rows == []
  {
    if docs == [] then [] else [Header("Other Things", None)] + OtherRows(docs) + [TableEnd]
  }

  lemma {:induction false} DocRowsReport(style: Style, docs: seq<Finding>)
    ensures Reported(DocRows(style, docs)) == docs
    decreases |docs|
  {
    if docs != [] {
      DocRowsReport(style, docs[1..]);
      assert DocRows(style, docs)[1..] == DocRows(style, docs[1..]);
    }
  }

  lemma {:induction false} TokenRowsReport(tokens: seq<Finding>, nested: bool)
    ensures Reported(TokenRows(tokens, nested)) == tokens
    decreases |tokens|
  {
    if tokens != [] {
      TokenRowsReport(tokens[1..], nested);
      assert TokenRows(tokens, nested)[1..] == TokenRows(tokens[1..], nested);
    }
  }

  lemma {:induction false} OtherRowsReport(docs: seq<Finding>)
    ensures Reported(OtherRows(docs)) == docs
    decreases |docs|
  {
    if docs != [] {
      OtherRowsReport(docs[1..]);
      assert OtherRows(docs)[1..] == OtherRows(docs[1..]);
    }
  }

  /** A section shows exactly its findings, in order. */
  lemma SectionReportsAll(docs: seq<Finding>, name: string, link: string, style: Style)
    ensures Reported(SectionRows(docs, name, link, style)) == docs
  {
    if docs != [] {
      ReportedConcat([Header(name, Some(link))], DocRows(style, docs));
      DocRowsReport(style, docs);
      assert [Header(name, Some(link))][1..] == [];
    }
  }

  /** The leftover rows show exactly the leftover findings, in order. */
  lemma LeftoverReportsAll(docs: seq<Finding>)
    ensures Reported(LeftoverRows(docs)) == docs
  {
    if docs != [] {
      var h := [Header("Other Things", None)];
      ReportedConcat(h, OtherRows(docs));
      ReportedConcat(h + OtherRows(docs), [TableEnd]);
      OtherRowsReport(docs);
      assert h[1..] == [] && [TableEnd][1..] == [];
    }
  }

  // ---------------------------------------------------------------------------
  // The grouped token section

  /** The grouping key of a token finding. */
  function TokenKey(baseActorName: Doc -> string): Finding -> GroupKey {
    (t: Finding) => GroupKey(baseActorName(t.doc), t.value)
  }

  /** The ids of the tokens, for the folder's toggle. */
  function TokenIds(tokens: seq<Finding>): (ids: seq<string>)
    ensures |ids| == |tokens|
    ensures forall i | 0 <= i < |tokens| :: ids[i] == tokens[i].doc.id
  {
    if tokens == [] then [] else [tokens[0].doc.id] + TokenIds(tokens[1..])
  }

  /** One group of tokens: a folder row only for more than one token, then
      the tokens, marked nested exactly when there is a folder. */
  function GroupRows(k: GroupKey, tokens: seq<Finding>): (rows: seq<Row>)
    requires tokens != []
    ensures |tokens| > 1 ==> |rows| == |tokens| + 1 && rows[0] == Folder(k, TokenIds(tokens), tokens[0].path)
    ensures |tokens| == 1 ==> rows == [TokenRow(tokens[0], false)]
    ensures forall i | 0 <= i < |rows| :: rows[i].Folder? <==> (i == 0 && |tokens| > 1)
    ensures forall i | 0 <= i < |rows| && rows[i].TokenRow? :: rows[i].nested <==> |tokens| > 1
  {
    (if |tokens| > 1 then [Folder(k, TokenIds(tokens), tokens[0].path)] else []) + TokenRows(tokens, |tokens| > 1)
  }

  /** The groups of `order`, in that order. */
  function GroupsRows(order: seq<GroupKey>, docs: seq<Finding>, key: Finding -> GroupKey): seq<Row>
    decreases |order|
  {
    if order == [] then []
    else
      var k := order[|order| - 1];
      var tokens := Filter(docs, key, k);
      GroupsRows(order[..|order| - 1], docs, key) + (if tokens == [] then [] else GroupRows(k, tokens))
  }

  /** `localeCompare` is taken as an abstract order on names. */
  ghost predicate TotalPreorder(le: (string, string) -> bool) {
    && (forall a, b :: le(a, b) || le(b, a))
    && (forall a, b, c :: le(a, b) && le(b, c) ==> le(a, c))
  }

  predicate SortedByName(ks: seq<GroupKey>, le: (string, string) -> bool) {
    forall i, j | 0 <= i < j < |ks| :: le(ks[i].name, ks[j].name)
  }

  /** A key placed before the first key whose name it does not follow. */
  function Insert(k: GroupKey, s: seq<GroupKey>, le: (string, string) -> bool): (r: seq<GroupKey>)
    ensures multiset(r) == multiset(s) + multiset{k}
  {
    if s == [] then [k]
    else if le(k.name, s[0].name) then [k] + s
    else
      assert s == [s[0]] + s[1..];
      [s[0]] + Insert(k, s[1..], le)
  }

  /** `Array.prototype.sort` of the keys by name: a stable sort. */
  function SortByName(ks: seq<GroupKey>, le: (string, string) -> bool): (r: seq<GroupKey>)
    ensures multiset(r) == multiset(ks)
  {
    if ks == [] then []
    else
      assert ks == [ks[0]] + ks[1..];
      Insert(ks[0], SortByName(ks[1..], le), le)
  }

  /** Every key of `s` has a name `b` does not follow. */
  predicate AllAfter(b: string, s: seq<GroupKey>, le: (string, string) -> bool) {
    forall j | 0 <= j < |s| :: le(b, s[j].name)
  }

  lemma {:induction false} InsertAllAfter(b: string, k: GroupKey, s: seq<GroupKey>, le: (string, string) -> bool)
    requires le(b, k.name) && AllAfter(b, s, le)
    ensures AllAfter(b, Insert(k, s, le), le)
    decreases |s|
  {
    if s != [] && !le(k.name, s[0].name) {
      InsertAllAfter(b, k, s[1..], le);
    }
  }

  lemma {:induction false} InsertSorted(k: GroupKey, s: seq<GroupKey>, le: (string, string) -> bool)
    requires TotalPreorder(le) && SortedByName(s, le)
    ensures SortedByName(Insert(k, s, le), le)
    decreases |s|
  {
    if s != [] {
      if le(k.name, s[0].name) {
        assert AllAfter(k.name, s, le) by {
          forall j | 0 < j < |s| ensures le(k.name, s[j].name) {
            assert le(s[0].name, s[j].name);
          }
        }
      } else {
        var rest := Insert(k, s[1..], le);
        InsertSorted(k, s[1..], le);
        InsertAllAfter(s[0].name, k, s[1..], le);
        assert forall j | 0 <= j < |rest| :: le(s[0].name, rest[j].name);
      }
    }
  }

  /** Under a total order the keys come out sorted by name. */
  lemma {:induction false} SortSorted(ks: seq<GroupKey>, le: (string, string) -> bool)
    requires TotalPreorder(le)
    ensures SortedByName(SortByName(ks, le), le)
    decreases |ks|
  {
    if ks != [] {
      SortSorted(ks[1..], le);
      InsertSorted(ks[0], SortByName(ks[1..], le), le);
    }
  }

  /** `sectionGrouped`: nothing for no tokens, else a header and the groups
      of equal actor name and link, in name order. */
  function GroupedRows(docs: seq<Finding>, name: string, link: string, baseActorName: Doc -> string, le: (string, string) -> bool): (rows: seq<Row>)
    ensures docs == [] <==> rows == []
    ensures docs != [] ==> rows[0] == Header(name, Some(link))
  {
    if docs == [] then []
    else
      var key := TokenKey(baseActorName);
      [Header(name, Some(link))] + GroupsRows(SortByName(FirstSeen(docs, key), le), docs, key)
  }

  /** A group's rows show exactly its tokens, in order. */
  lemma GroupRowsReport(k: GroupKey, tokens: seq<Finding>)
    requires tokens != []
    ensures Reported(GroupRows(k, tokens)) == tokens
  {
    var folder := if |tokens| > 1 then [Folder(k, TokenIds(tokens), tokens[0].path)] else [];
    assert GroupRows(k, tokens) == folder + TokenRows(tokens, |tokens| > 1);
    ReportedConcat(folder, TokenRows(tokens, |tokens| > 1));
    TokenRowsReport(tokens, |tokens| > 1);
    assert Reported(folder) == [] by {
      if |tokens| > 1 {
        assert folder[1..] == [];
      }
    }
  }

  lemma {:induction false} GroupsRowsReport(order: seq<GroupKey>, docs: seq<Finding>, key: Finding -> GroupKey)
    ensures Reported(GroupsRows(order, docs, key)) == Concat(docs, key, order)
    decreases |order|
  {
    if order != [] {
      var init, k := order[..|order| - 1], order[|order| - 1];
      var tokens := Filter(docs, key, k);
      var last := if tokens == [] then [] else GroupRows(k, tokens);
      assert Reported(last) == tokens by {
        if tokens != [] {
          GroupRowsReport(k, tokens);
        }
      }
      assert Reported(GroupsRows(order, docs, key)) == Reported(GroupsRows(init, docs, key)) + Reported(last) by {
        assert GroupsRows(order, docs, key) == GroupsRows(init, docs, key) + last;
        ReportedConcat(GroupsRows(init, docs, key), last);
      }
      assert Concat(docs, key, order) == Concat(docs, key, init) + tokens by {
        assert order == init + [k];
        ConcatAppend(docs, key, init, k);
      }
      GroupsRowsReport(init, docs, key);
    }
  }

  lemma GroupsRowsSnoc(order: seq<GroupKey>, i: nat, docs: seq<Finding>, key: Finding -> GroupKey)
    requires i < |order| && Filter(docs, key, order[i]) != []
    ensures GroupsRows(order[..i + 1], docs, key) == GroupsRows(order[..i], docs, key) + GroupRows(order[i], Filter(docs, key, order[i]))
  {
    assert order[..i + 1][..i] == order[..i];
  }

  /** The grouped section shows every token finding exactly once. */
  lemma GroupedReportsAll(docs: seq<Finding>, name: string, link: string, baseActorName: Doc -> string, le: (string, string) -> bool)
    ensures multiset(Reported(GroupedRows(docs, name, link, baseActorName, le))) == multiset(docs)
  {
    if docs != [] {
      var key := TokenKey(baseActorName);
      var order := SortByName(FirstSeen(docs, key), le);
      var h := [Header(name, Some(link))];
      ReportedConcat(h, GroupsRows(order, docs, key));
      assert h[1..] == [];
      GroupsRowsReport(order, docs, key);
      ConcatPermutation(docs, key, order, FirstSeen(docs, key));
      GroupsPartition(docs, key);
    }
  }

  // ---------------------------------------------------------------------------
  // The whole report

  const PortraitStyle := Style(ShowSheet, "fa-user", DocName)
  const PrototypeStyle := Style(ShowProto, "fa-user-circle", DocName)
  const SceneStyle := Style(ShowSheet, "fa-map", DocName)
  const TileStyle := Style(ShowSheet, "fa-cubes", ParentName)
  const ItemStyle := Style(ShowSheet, "fa-suitcase", DocName)

  /** The rows the report appends after its preamble, section by section. */
  function ReportRows(broken: seq<Finding>, baseActorName: Doc -> string, le: (string, string) -> bool): seq<Row> {
    SectionRows(Select(broken, ActorPortrait), "Actor Portrait", "Borken Image Link", PortraitStyle)
    + SectionRows(Select(broken, ActorPrototype), "Actor Prototype Token", "Broken Image Lnk", PrototypeStyle)
    + GroupedRows(Select(broken, Tokens), "Token", "Broken Iamge Link", baseActorName, le)
    + SectionRows(Select(broken, Scenes), "Scenes", "Brkoen Image Link", SceneStyle)
    + SectionRows(Select(broken, Tiles), "Tiles", "Broken Imge Link", TileStyle)
    + SectionRows(Select(broken, Items), "Items", "Broken Image Lnik", ItemStyle)
    + LeftoverRows(Select(broken, Other))
  }

  /** Every finding is shown in exactly one row of the report, and no row
      shows anything else. */
  lemma ReportShowsEachFindingOnce(broken: seq<Finding>, baseActorName: Doc -> string, le: (string, string) -> bool)
    ensures multiset(Reported(ReportRows(broken, baseActorName, le))) == multiset(broken)
  {
    var r1 := SectionRows(Select(broken, ActorPortrait), "Actor Portrait", "Borken Image Link", PortraitStyle);
    var r2 := SectionRows(Select(broken, ActorPrototype), "Actor Prototype Token", "Broken Image Lnk", PrototypeStyle);
    var r3 := GroupedRows(Select(broken, Tokens), "Token", "Broken Iamge Link", baseActorName, le);
    var r4 := SectionRows(Select(broken, Scenes), "Scenes", "Brkoen Image Link", SceneStyle);
    var r5 := SectionRows(Select(broken, Tiles), "Tiles", "Broken Imge Link", TileStyle);
    var r6 := SectionRows(Select(broken, Items), "Items", "Broken Image Lnik", ItemStyle);
    var r7 := LeftoverRows(Select(broken, Other));
    ReportedConcat(r1, r2);
    ReportedConcat(r1 + r2, r3);
    ReportedConcat(r1 + r2 + r3, r4);
    ReportedConcat(r1 + r2 + r3 + r4, r5);
    ReportedConcat(r1 + r2 + r3 + r4 + r5, r6);
    ReportedConcat(r1 + r2 + r3 + r4 + r5 + r6, r7);
    SectionReportsAll(Select(broken, ActorPortrait), "Actor Portrait", "Borken Image Link", PortraitStyle);
    SectionReportsAll(Select(broken, ActorPrototype), "Actor Prototype Token", "Broken Image Lnk", PrototypeStyle);
    GroupedReportsAll(Select(broken, Tokens), "Token", "Broken Iamge Link", baseActorName, le);
    SectionReportsAll(Select(broken, Scenes), "Scenes", "Brkoen Image Link", SceneStyle);
    SectionReportsAll(Select(broken, Tiles), "Tiles", "Broken Imge Link", TileStyle);
    SectionReportsAll(Select(broken, Items), "Items", "Broken Image Lnik", ItemStyle);
    LeftoverReportsAll(Select(broken, Other));
    SectionsPartition(broken);
  }

  // ---------------------------------------------------------------------------
  // The report as the macro builds it

  /** The dialog's `content`, grown section by section. */
  class ReportBuilder {
    var content: seq<Row>

    constructor()
      ensures content == [Preamble]
    {
      content := [Preamble];
    }

    /** `section`. */
    method Section(docs: seq<Finding>, name: string, link: string, style: Style)
      modifies this
      ensures content == old(content) + SectionRows(docs, name, link, style)
    {
      if |docs| > 0 {
        content := content + [Header(name, Some(link))];
        content := content + DocRows(style, docs);
      }
    }

    /** `sectionGrouped`. */
    method SectionGrouped(docs: seq<Finding>, name: string, link: string, baseActorName: Doc -> string, le: (string, string) -> bool)
      modifies this
      ensures content == old(content) + GroupedRows(docs, name, link, baseActorName, le)
    {
      if |docs| == 0 {
        return;
      }
      content := content + [Header(name, Some(link))];
      var key := TokenKey(baseActorName);
      var tokenGroups := GroupBy(docs, key);
      var order := SortByName(tokenGroups.keys, le);
      ghost var start := content;
      for i := 0 to |order|
        invariant content == start + GroupsRows(order[..i], docs, key)
      {
        var k := order[i];
        assert k in tokenGroups.groups by {
          assert k in multiset(tokenGroups.keys);
        }
        var tokens := tokenGroups.groups[k];
        FilterNonEmpty(docs, key, k);
        GroupsRowsSnoc(order, i, docs, key);
        AppendGroup(k, tokens);
        AppendAssoc(start, GroupsRows(order[..i], docs, key), GroupRows(k, tokens));
      }
      assert order[..|order|] == order;
      AppendAssoc(old(content), [Header(name, Some(link))], GroupsRows(order, docs, key));
    }

    /** The body of `sectionGrouped`'s loop: one group of tokens. */
    method AppendGroup(k: GroupKey, tokens: seq<Finding>)
      requires tokens != []
      modifies this
      ensures content == old(content) + GroupRows(k, tokens)
    {
      if |tokens| > 1 {
        content := content + [Folder(k, TokenIds(tokens), tokens[0].path)];
      }
      content := content + TokenRows(tokens, |tokens| > 1);
    }

    /** The report: the six sections, then the leftover findings. */
    method Render(broken: seq<Finding>, baseActorName: Doc -> string, le: (string, string) -> bool)
      modifies this
      ensures content == old(content) + ReportRows(broken, baseActorName, le)
    {
      ghost var r1 := SectionRows(Select(broken, ActorPortrait), "Actor Portrait", "Borken Image Link", PortraitStyle);
      ghost var r2 := SectionRows(Select(broken, ActorPrototype), "Actor Prototype Token", "Broken Image Lnk", PrototypeStyle);
      ghost var r3 := GroupedRows(Select(broken, Tokens), "Token", "Broken Iamge Link", baseActorName, le);
      ghost var r4 := SectionRows(Select(broken, Scenes), "Scenes", "Brkoen Image Link", SceneStyle);
      ghost var r5 := SectionRows(Select(broken, Tiles), "Tiles", "Broken Imge Link", TileStyle);
      ghost var r6 := SectionRows(Select(broken, Items), "Items", "Broken Image Lnik", ItemStyle);
      Section(Select(broken, ActorPortrait), "Actor Portrait", "Borken Image Link", PortraitStyle);
      Section(Select(broken, ActorPrototype), "Actor Prototype Token", "Broken Image Lnk", PrototypeStyle);
      AppendAssoc(old(content), r1, r2);
      SectionGrouped(Select(broken, Tokens), "Token", "Broken Iamge Link", baseActorName, le);
      AppendAssoc(old(content), r1 + r2, r3);
      Section(Select(broken, Scenes), "Scenes", "Brkoen Image Link", SceneStyle);
      AppendAssoc(old(content), r1 + r2 + r3, r4);
      Section(Select(broken, Tiles), "Tiles", "Broken Imge Link", TileStyle);
      AppendAssoc(old(content), r1 + r2 + r3 + r4, r5);
      Section(Select(broken, Items), "Items", "Broken Image Lnik", ItemStyle);
      AppendAssoc(old(content), r1 + r2 + r3 + r4 + r5, r6);
      ghost var r7 := LeftoverRows(Select(broken, Other));
      AppendAssoc(old(content), r1 + r2 + r3 + r4 + r5 + r6, r7);
      var leftover := Select(broken, Other);
      if |leftover| > 0 {
        content := content + ([Header("Other Things", None)] + OtherRows(leftover) + [TableEnd]);
      }
    }
  }
}
