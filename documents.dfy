/** Host documents as both macros see them: a document type name, an id, the
    image-path properties found at the dotted paths of the property table, and
    the embedded collections its class declares. Both macros carry the same
    property table; it is declared once here. */
module Documents {

  datatype Option<T> = None | Some(value: T)

  /** The one error the macros raise: a JavaScript TypeError from reading a
      member of `undefined` or `null`. Where several documents are probed in
      parallel, which one rejects first does not matter, since all rejections
      carry this same value. */
  datatype Error = TypeError

  datatype Result<T> = Success(value: T) | Failure(error: Error) {
    predicate IsFailure() { Failure? }
    function PropagateFailure<U>(): Result<U> requires Failure? { Failure(error) }
    function Extract(): T requires Success? { value }
  }

  /** `done.concat(rest)` once `rest` has been computed; a failure while
      computing `rest` is passed on. */
  function Prefixed<T>(done: seq<T>, r: Result<seq<T>>): Result<seq<T>> {
    match r
    case Success(rest) => Success(done + rest)
    case Failure(e) => Failure(e)
  }

  lemma PrefixedAssoc<T>(a: seq<T>, b: seq<T>, r: Result<seq<T>>)
    ensures Prefixed(a, Prefixed(b, r)) == Prefixed(a + b, r)
    ensures Prefixed([], r) == r
    ensures Prefixed(a, Success([])) == Success(a)
  {
    assert a + [] == a;
    if r.Success? {
      assert a + (b + r.value) == (a + b) + r.value;
      assert [] + r.value == r.value;
    }
  }

  lemma AppendAssoc<T>(a: seq<T>, b: seq<T>, c: seq<T>)
    ensures (a + b) + c == a + (b + c)
  {
  }

  /** A document: `documentName` (its type), `id`, the string found at each
      dotted property path, and one entry per embedded collection of its class,
      in the order of the class metadata. */
  datatype Doc = Doc(kind: string, id: string, props: map<string, string>, embedded: seq<Embedded>)

  /** An entry of `metadata.embedded`: the embedded class, the document field
      holding it, and what that field holds. */
  datatype Embedded = Embedded(cls: string, field: string, value: EmbValue)

  /** What an embedded field holds: null or undefined, one embedded document
      (an object without `map`), or a collection (anything with `map`). */
  datatype EmbValue = Nullish | Single(doc: Doc) | Many(docs: seq<Doc>)

  /** `getProperty(doc, path)` read as a string: an absent property is
      `undefined`, which both macros treat exactly like the empty string (falsy). */
  function Value(d: Doc, path: string): (v: string)
    ensures v != "" ==> path in d.props && d.props[path] == v
    ensures path in d.props ==> v == d.props[path]
  {
    if path in d.props then d.props[path] else ""
  }

  /** A table of document type names, each with the property paths that may
      hold an image link; a JavaScript object literal, so its keys keep their
      declaration order. */
  type Table = seq<(string, seq<string>)>

  /** The `property` table both macros declare. The traversals take the table
      as a parameter; the top-level runs pass this one. */
  const PropertyTable: Table := [
    ("ActiveEffect", ["icon"]),
    ("Actor", ["img", "prototypeToken.texture.src"]),
    ("ActorDelta", ["img"]),
    ("Item", ["img"]),
    ("JournalEntry", []),
    ("JournalEntryPage", ["src"]),
    ("Macro", ["img"]),
    ("Note", ["texture.src"]),
    ("RollTable", ["img"]),
    ("Scene", ["background.src", "foreground"]),
    ("TableResult", ["img"]),
    ("Tile", ["texture.src"]),
    ("Token", ["texture.src"])
  ]

  /** The names of a table, in order (`Object.keys(property)`). */
  function KeysOf(table: Table): (ks: seq<string>)
    ensures |ks| == |table|
    ensures forall i :: 0 <= i < |table| ==> ks[i] == table[i].0
  {
    if table == [] then [] else [table[0].0] + KeysOf(table[1..])
  }

  /** `table[kind]`: the paths listed for `kind`, or None (`undefined`). */
  function Lookup(table: Table, kind: string): (r: Option<seq<string>>)
    ensures r.Some? <==> kind in KeysOf(table)
    ensures r.Some? ==> exists i :: 0 <= i < |table| && table[i] == (kind, r.value)
  {
    if table == [] then None
    else if table[0].0 == kind then Some(table[0].1)
    else
      var r := Lookup(table[1..], kind);
      assert r.Some? ==> exists i :: 0 <= i < |table| - 1 && table[1..][i] == (kind, r.value);
      r
  }

  /** The names of a table are pairwise distinct, as the keys of an object
      literal are. */
  predicate DistinctNames(table: Table) {
    forall i, j | 0 <= i < j < |table| :: table[i].0 != table[j].0
  }

  /** The `property` table declares each document type once. No two of its
      names share both their length and their first letter. */
  lemma PropertyTableNamesDistinct()
    ensures DistinctNames(PropertyTable)
    ensures |KeysOf(PropertyTable)| == 13
  {
    var tags := [(12, 'A'), (5, 'A'), (10, 'A'), (4, 'I'), (12, 'J'), (16, 'J'), (5, 'M'),
                 (4, 'N'), (9, 'R'), (5, 'S'), (11, 'T'), (4, 'T'), (5, 'T')];
    assert forall i | 0 <= i < 13 :: |PropertyTable[i].0| == tags[i].0 && PropertyTable[i].0[0] == tags[i].1;
    forall i, j | 0 <= i < j < |PropertyTable|
      ensures PropertyTable[i].0 != PropertyTable[j].0
    {
      assert tags[i] != tags[j];
    }
  }

  /** With distinct names, the entry `Lookup` finds for a name is that name's
      only entry, so it agrees with the object literal's `property[kind]`. */
  lemma {:induction false} LookupDistinct(table: Table, i: nat)
    requires DistinctNames(table) && i < |table|
    ensures Lookup(table, table[i].0) == Some(table[i].1)
  {
    if i > 0 {
      assert table[1..][i - 1] == table[i];
      assert DistinctNames(table[1..]) by {
        forall a, b | 0 <= a < b < |table| - 1
          ensures table[1..][a].0 != table[1..][b].0
        {
          assert table[1..][a] == table[a + 1] && table[1..][b] == table[b + 1];
        }
      }
      LookupDistinct(table[1..], i - 1);
      assert table[0].0 != table[i].0;
    }
  }

  /** `embCol.map ? embCol : [embCol]`: the documents of an embedded field; on
      null or undefined the `.map` read throws. */
  function Members(v: EmbValue): (r: Result<seq<Doc>>)
    ensures r.Failure? <==> v.Nullish?
    ensures v.Single? ==> r == Success([v.doc])
    ensures v.Many? ==> r == Success(v.docs)
  {
    match v
    case Nullish => Failure(TypeError)
    case Single(d) => Success([d])
    case Many(ds) => Success(ds)
  }

  // A size measure on document trees. Wrapping a single embedded document
  // as `[embCol]` builds a sequence that is not a structural part of its owner,
  // so the traversals of both macros terminate by this measure instead.

  function Size(d: Doc): nat
    decreases d
  {
    1 + SizeEntries(d.embedded)
  }

  function SizeEntries(es: seq<Embedded>): nat
    decreases es
  {
    if es == [] then 0 else SizeValue(es[0].value) + SizeEntries(es[1..])
  }

  function SizeValue(v: EmbValue): nat
    decreases v
  {
    match v
    case Nullish => 0
    case Single(d) => Size(d)
    case Many(ds) => SizeColl(ds)
  }

  function SizeColl(ds: seq<Doc>): nat
    decreases ds
  {
    if ds == [] then 0 else Size(ds[0]) + SizeColl(ds[1..])
  }

  /** An embedded field's documents are as large as the field's value. */
  lemma MembersSize(v: EmbValue)
    requires v.Single? || v.Many?
    ensures SizeColl(Members(v).value) == SizeValue(v)
  {
    if v.Single? {
      assert [v.doc][1..] == [];
    }
  }

  /** The documents an embedded field yields are together no larger than the
      field's owner's entries. */
  lemma {:induction false} MembersSmaller(es: seq<Embedded>, i: nat)
    requires i < |es| && Members(es[i].value).Success?
    ensures SizeColl(Members(es[i].value).value) <= SizeEntries(es)
  {
    if i == 0 {
      match es[0].value
      case Single(d) => assert [d][1..] == [];
      case Many(ds) =>
    } else {
      MembersSmaller(es[1..], i - 1);
    }
  }

  /** A document of a collection is no larger than the collection. */
  lemma {:induction false} ElementSmaller(ds: seq<Doc>, j: nat)
    requires j < |ds|
    ensures Size(ds[j]) <= SizeColl(ds)
  {
    if j > 0 {
      ElementSmaller(ds[1..], j - 1);
    }
  }
}
