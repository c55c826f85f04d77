/** The image-link rewrite rule of the image updater: which links may be
    rewritten, how a link is split into base and extension, and which
    preferred extension replaces the current one.

    `probe(path)` stands for the HEAD request `fetch(path, {method: "HEAD"})`
    answering, and its response being `ok`. A request that is rejected
    outright (a network error) aborts the macro instead; that case is not
    modelled. */
module ImageLinks {
  import opened Documents

  /** The options of one run: the three "replace" checkboxes, the extensions to
      try in order of preference, the extensions to skip, and the document
      types whose checkbox is ticked (`change`; `change.get` of any other
      name is `undefined`, i.e. off). */
  datatype Params = Params(
    replaceSystem: bool,
    replaceModule: bool,
    replaceFoundry: bool,
    endings: seq<string>,
    exclude: seq<string>,
    change: set<string>)

  predicate StartsWith(s: string, prefix: string) { prefix <= s }

  /** A link may be considered at all: it is truthy, and it does not point into
      a game system, a module or Foundry itself unless that is allowed. */
  predicate Eligible(p: Params, value: string) {
    && value != ""
    && (p.replaceSystem || !StartsWith(value, "systems/"))
    && (p.replaceModule || !StartsWith(value, "modules/"))
    && (p.replaceFoundry || (!StartsWith(value, "ui/") && !StartsWith(value, "icons/")))
  }

  /** `s.lastIndexOf(c)`: the last position holding `c`, or -1. */
  function LastIndexOf(s: string, c: char): (r: int)
    ensures -1 <= r < |s|
    ensures r == -1 <==> c !in s
    ensures 0 <= r ==> s[r] == c && c !in s[r + 1..]
  {
    if s == [] then -1
    else if s[|s| - 1] == c then |s| - 1
    else
      var r := LastIndexOf(s[..|s| - 1], c);
      assert s == s[..|s| - 1] + [s[|s| - 1]];
      assert 0 <= r ==> s[r + 1..] == s[..|s| - 1][r + 1..] + [s[|s| - 1]];
      r
  }

  /** JavaScript's `x >>> 0` (ToUint32): -1 becomes 2^32 - 1. */
  function ToUint32(x: int): (r: nat)
    ensures r < 0x1_0000_0000
    ensures 0 <= x < 0x1_0000_0000 ==> r == x
    ensures -0x1_0000_0000 <= x < 0 ==> r == x + 0x1_0000_0000
  {
    x % 0x1_0000_0000
  }

  /** `s.slice(from, to)` for non-negative arguments: both are clamped to the
      length, and the result is empty unless `from` is below `to`. */
  function Slice(s: string, from: nat, to: nat): string {
    var f := if from < |s| then from else |s|;
    var t := if to < |s| then to else |s|;
    if f < t then s[f..t] else ""
  }

  function SplitIndex(value: string): nat { ToUint32(LastIndexOf(value, '.')) }

  /** The text before the split point. */
  function Base(value: string): string { Slice(value, 0, SplitIndex(value)) }

  /** The text after the split point (`value.slice(split + 1)`). */
  function Ending(value: string): string { Slice(value, SplitIndex(value) + 1, |value|) }

  /** JavaScript strings are far shorter than 2^32 code units; the split is
      only meaningful for such strings. */
  predicate WithinLengthLimit(s: string) { |s| < 0x1_0000_0000 }

  /** The split is at the last dot; a link without a dot is all base and has
      the empty ending. */
  lemma SplitAtLastDot(value: string)
    requires WithinLengthLimit(value)
    ensures '.' in value ==> Base(value) + "." + Ending(value) == value && '.' !in Ending(value)
    ensures '.' !in value ==> Base(value) == value && Ending(value) == ""
  {
    var d := LastIndexOf(value, '.');
    if d >= 0 {
      assert Base(value) == value[..d];
      assert Ending(value) == value[d + 1..];
      assert value == value[..d] + [value[d]] + value[d + 1..];
    } else {
      assert SplitIndex(value) == 0xFFFF_FFFF;
      assert Base(value) == value[0..|value|];
    }
  }

  /** A link made of a base, a dot and a dot-free extension splits back into
      exactly that base and extension. */
  lemma SplitCandidate(base: string, e: string)
    requires '.' !in e && WithinLengthLimit(base + "." + e)
    ensures Base(base + "." + e) == base && Ending(base + "." + e) == e
  {
    var l := base + "." + e;
    assert l[|base|] == '.';
    var d := LastIndexOf(l, '.');
    assert d == |base|;
    SplitAtLastDot(l);
    assert l[..d] == base && l[d + 1..] == e;
  }

  /** `xs.indexOf(x)`: the first position holding `x`, or -1. */
  function IndexOf(xs: seq<string>, x: string): (r: int)
    ensures -1 <= r < |xs|
    ensures r == -1 <==> x !in xs
    ensures 0 <= r ==> xs[r] == x && x !in xs[..r]
  {
    if xs == [] then -1
    else if xs[0] == x then 0
    else
      var r := IndexOf(xs[1..], x);
      assert 0 <= r ==> xs[..r + 1] == [xs[0]] + xs[1..][..r];
      if r == -1 then -1 else r + 1
  }

  /** How many preferred extensions are tried: those strictly before the
      current extension, or all of them when it is not in the list. */
  function ToTry(endings: seq<string>, ending: string): (n: nat)
    ensures n <= |endings|
    ensures forall j :: 0 <= j < n ==> endings[j] != ending
    ensures n < |endings| ==> endings[n] == ending
  {
    var k := IndexOf(endings, ending);
    assert forall j :: 0 <= j < k ==> endings[..k][j] == endings[j];
    if k == -1 then |endings| else k
  }

  /** The link with the same base and extension `e`. */
  function Candidate(base: string, e: string): string { base + "." + e }

  /** The first position in `from..to` whose candidate the probe finds. */
  function FirstExisting(base: string, endings: seq<string>, from: nat, to: nat, probe: string -> bool): (r: Option<nat>)
    requires from <= to <= |endings|
    decreases (to as int) - (from as int)
    ensures r.Some? ==> from <= r.value < to && probe(Candidate(base, endings[r.value]))
    ensures r.Some? ==> forall j :: from <= j < r.value ==> !probe(Candidate(base, endings[j]))
    ensures r.None? ==> forall j :: from <= j < to ==> !probe(Candidate(base, endings[j]))
  {
    if from >= to then None
    else if probe(Candidate(base, endings[from])) then Some(from)
    else FirstExisting(base, endings, from + 1, to, probe)
  }

  /** The rewritten link for `value`, or None when it is left as it is. */
  function NewLink(p: Params, value: string, probe: string -> bool): Option<string> {
    if !Eligible(p, value) || Ending(value) in p.exclude then None
    else
      match FirstExisting(Base(value), p.endings, 0, ToTry(p.endings, Ending(value)), probe)
      case None => None
      case Some(i) => Some(Candidate(Base(value), p.endings[i]))
  }

  /** The loop of lines 65-71: the first candidate among `endings[..toTry]`
      that the probe finds. */
  method TryEndings(base: string, endings: seq<string>, toTry: nat, probe: string -> bool) returns (link: Option<string>)
    requires toTry <= |endings|
    ensures link == match FirstExisting(base, endings, 0, toTry, probe)
      case None => None
      case Some(i) => Some(Candidate(base, endings[i]))
  {
    for i := 0 to toTry
      invariant FirstExisting(base, endings, 0, toTry, probe) == FirstExisting(base, endings, i, toTry, probe)
    {
      var name := base + "." + endings[i];
      if probe(name) {
        return Some(name);
      }
    }
    return None;
  }

  /** The rule of lines 52-72 for one property value: the link it is changed
      to, if any. */
  method RewriteLink(p: Params, value: string, probe: string -> bool) returns (link: Option<string>)
    ensures link == NewLink(p, value, probe)
  {
    if value != ""
      && (p.replaceSystem || !StartsWith(value, "systems/"))
      && (p.replaceModule || !StartsWith(value, "modules/"))
      && (p.replaceFoundry || (!StartsWith(value, "ui/") && !StartsWith(value, "icons/")))
    {
      var split := ToUint32(LastIndexOf(value, '.'));
      var base := Slice(value, 0, split);
      var ending := Slice(value, split + 1, |value|);
      assert Eligible(p, value) && base == Base(value) && ending == Ending(value);
      if ending in p.exclude {
        return None;
      }
      var toTry := IndexOf(p.endings, ending);
      if toTry == -1 {
        toTry := |p.endings|;
      }
      assert toTry == ToTry(p.endings, ending);
      link := TryEndings(base, p.endings, toTry, probe);
      return;
    }
    return None;
  }

  /** Links into a game system, a module, or Foundry's own `ui/` and `icons/`
      folders are never rewritten unless the matching option is set. */
  lemma ProtectedLinksKept(p: Params, value: string, probe: string -> bool)
    ensures StartsWith(value, "systems/") && !p.replaceSystem ==> NewLink(p, value, probe) == None
    ensures StartsWith(value, "modules/") && !p.replaceModule ==> NewLink(p, value, probe) == None
    ensures (StartsWith(value, "ui/") || StartsWith(value, "icons/")) && !p.replaceFoundry
      ==> NewLink(p, value, probe) == None
  {
  }

  /** A link whose extension is excluded is never rewritten, and neither is an
      empty one. */
  lemma ExcludedKept(p: Params, value: string, probe: string -> bool)
    ensures Ending(value) in p.exclude ==> NewLink(p, value, probe) == None
    ensures value == "" ==> NewLink(p, value, probe) == None
  {
  }

  /** The rule exactly: a link is rewritten to `l` iff it is eligible, its
      extension is not excluded, and `l` is the first candidate, among the
      extensions preferred over the current one, that the probe finds. */
  lemma RewriteIsFirstExisting(p: Params, value: string, probe: string -> bool, l: string)
    ensures NewLink(p, value, probe) == Some(l) <==>
      && Eligible(p, value)
      && Ending(value) !in p.exclude
      && exists i :: 0 <= i < ToTry(p.endings, Ending(value))
           && l == Candidate(Base(value), p.endings[i])
           && probe(l)
           && forall j :: 0 <= j < i ==> !probe(Candidate(Base(value), p.endings[j]))
  {
    var n := ToTry(p.endings, Ending(value));
    var base := Base(value);
    if Eligible(p, value) && Ending(value) !in p.exclude {
      var r := FirstExisting(base, p.endings, 0, n, probe);
      if i :| (0 <= i < n && l == Candidate(base, p.endings[i]) && probe(l)
           && forall j :: 0 <= j < i ==> !probe(Candidate(base, p.endings[j]))) {
        assert r.Some? && r.value == i;
      }
    }
  }

  /** No rewrite produces a broken link, and every rewrite moves strictly
      toward a more preferred extension: the current extension is not among
      the preferred ones up to and including the new one. In particular a link
      already on the first preferred extension stays as it is. */
  lemma RewriteOnlyImproves(p: Params, value: string, probe: string -> bool)
    ensures NewLink(p, value, probe).Some? ==>
      && probe(NewLink(p, value, probe).value)
      && exists i :: 0 <= i < |p.endings|
           && NewLink(p, value, probe).value == Candidate(Base(value), p.endings[i])
           && forall j :: 0 <= j <= i ==> p.endings[j] != Ending(value)
    ensures |p.endings| > 0 && Ending(value) == p.endings[0] ==> NewLink(p, value, probe) == None
  {
    if NewLink(p, value, probe).Some? {
      var i := FirstExisting(Base(value), p.endings, 0, ToTry(p.endings, Ending(value)), probe).value;
      assert forall j :: 0 <= j <= i ==> p.endings[j] != Ending(value);
    }
  }

  /** The rewritten link keeps the base: split again, it gives back the old
      base and the chosen extension. */
  lemma RewriteKeepsBase(p: Params, value: string, probe: string -> bool)
    requires forall e | e in p.endings :: '.' !in e && WithinLengthLimit(Base(value) + "." + e)
    ensures NewLink(p, value, probe).Some? ==>
      && Base(NewLink(p, value, probe).value) == Base(value)
      && Ending(NewLink(p, value, probe).value) in p.endings
  {
    if NewLink(p, value, probe).Some? {
      var i := FirstExisting(Base(value), p.endings, 0, ToTry(p.endings, Ending(value)), probe).value;
      SplitCandidate(Base(value), p.endings[i]);
    }
  }

  /** Running the rule on its own output changes nothing: the extensions
      preferred over the new one were all probed for the same base and missed. */
  lemma RewriteIdempotent(p: Params, value: string, probe: string -> bool)
    requires forall e | e in p.endings :: '.' !in e && WithinLengthLimit(Base(value) + "." + e)
    ensures NewLink(p, value, probe).Some? ==> NewLink(p, NewLink(p, value, probe).value, probe) == None
  {
    if NewLink(p, value, probe).Some? {
      var base := Base(value);
      var i := FirstExisting(base, p.endings, 0, ToTry(p.endings, Ending(value)), probe).value;
      var l := Candidate(base, p.endings[i]);
      SplitCandidate(base, p.endings[i]);
      var k := ToTry(p.endings, p.endings[i]);
      assert k <= i;
      var r := FirstExisting(base, p.endings, 0, k, probe);
      assert r.None?;
    }
  }
}
