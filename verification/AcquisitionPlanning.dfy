/** What the planner does before a run: the variants of one occurrence, and the
    selections without their duplicates. */
module AcquisitionPlanning {

  import opened Basics

  // ----- resolve_occurrence_variants -----

  /** One element of the document's variant list. Malformed: no object, no role,
      or a URL that is neither missing nor a non-empty string. */
  datatype Entry = Malformed | NotOffered(role: string) | Offer(role: string, url: string)
  datatype Listing = NoList | NotAList | Entries(entries: seq<Entry>)
  datatype Document = Absent | Unreadable | Document(listing: Listing, archive: Option<string>)
  datatype Flaw = InvalidVariants | AmbiguousVariant

  type Variants = map<string, string>

  /** The occurrence's own URLs; "" stands for none. */
  function Base(remote: string, preview: string): Variants {
    (if remote == "" then map[] else map["primary" := remote]) + (if preview == "" then map[] else map["preview" := preview])
  }

  function Default(m: Variants, role: string, url: string): Variants {
    if role in m then m else m[role := url]
  }

  function WithArchive(m: Variants, archive: Option<string>): Variants {
    if archive.None? then m else Default(Default(m, "archive", archive.value), "primary", archive.value)
  }

  function FlawOf(m: Variants, e: Entry): Option<Flaw> {
    match e
    case Malformed => Some(InvalidVariants)
    case NotOffered(_) => None
    case Offer(role, url) => if role in m && m[role] != url then Some(AmbiguousVariant) else None
  }

  function Added(m: Variants, e: Entry): Variants {
    if e.Offer? then m[e.role := e.url] else m
  }

  /** The list read from the front until the first flaw. */
  function Read(m: Variants, entries: seq<Entry>): (Variants, Option<Flaw>)
    decreases |entries|
  {
    if entries == [] then (m, None)
    else if FlawOf(m, entries[0]).Some? then (m, FlawOf(m, entries[0]))
    else Read(Added(m, entries[0]), entries[1..])
  }

  /** The union of the base and the offers is a function of the role. */
  predicate SingleValued(m: Variants, entries: seq<Entry>) {
    && (forall e | e in entries && e.Offer? && e.role in m :: m[e.role] == e.url)
    && (forall e, f | e in entries && f in entries && e.Offer? && f.Offer? && e.role == f.role :: e.url == f.url)
  }

  predicate Readable(m: Variants, entries: seq<Entry>) { Malformed !in entries && SingleValued(m, entries) }

  /** A map holding exactly the base and the offers. */
  ghost predicate IsUnion(m: Variants, entries: seq<Entry>, r: Variants) {
    && (forall role | role in m :: role in r && r[role] == m[role])
    && (forall e | e in entries && e.Offer? :: e.role in r && r[e.role] == e.url)
    && (forall role | role in r :: (role in m && m[role] == r[role]) || Offer(role, r[role]) in entries)
  }

  lemma {:induction false} ReadExactly(m: Variants, entries: seq<Entry>)
    ensures Read(m, entries).1.None? <==> Readable(m, entries)
    ensures Readable(m, entries) ==> IsUnion(m, entries, Read(m, entries).0)
    decreases |entries|
  {
    if entries != [] {
      var e, rest := entries[0], entries[1..];
      assert entries == [e] + rest;
      if FlawOf(m, e).None? {
        var next := Added(m, e);
        ReadExactly(next, rest);
        if Readable(next, rest) {
          forall f, g | f in entries && g in entries && f.Offer? && g.Offer? && f.role == g.role ensures f.url == g.url {
            assert f in rest && f.role in next ==> next[f.role] == f.url;
            assert g in rest && g.role in next ==> next[g.role] == g.url;
          }
          forall f | f in entries && f.Offer? && f.role in m ensures m[f.role] == f.url {
            if f in rest { assert next[f.role] == f.url; }
          }
        }
        if Readable(m, entries) {
          assert forall f | f in rest :: f in entries;
          assert Readable(next, rest);
        }
      }
    }
  }

  // ----- the variants themselves -----

  /** Who names a URL for a role first: the occurrence's own URLs and the listed
      offers; and after them the archive's, for itself and for the primary. */
  predicate Named(remote: string, preview: string, entries: seq<Entry>, role: string, url: string) {
    || (role == "primary" && remote != "" && url == remote) || (role == "preview" && preview != "" && url == preview)
    || Offer(role, url) in entries
  }

  ghost predicate Unnamed(remote: string, preview: string, entries: seq<Entry>, role: string) {
    forall url :: !Named(remote, preview, entries, role, url)
  }

  ghost predicate IsVariant(remote: string, preview: string, entries: seq<Entry>, archive: Option<string>, role: string,
                            url: string) {
    Named(remote, preview, entries, role, url) ||
    (archive == Some(url) && (role == "archive" || role == "primary") && Unnamed(remote, preview, entries, role))
  }

  /** No entry is malformed and no role is named twice with different URLs. */
  ghost predicate Agreeing(remote: string, preview: string, entries: seq<Entry>) {
    && Malformed !in entries
    && forall role, url, other :: Named(remote, preview, entries, role, url) && Named(remote, preview, entries, role, other) ==> url == other
  }

  lemma AgreeingIsReadable(remote: string, preview: string, entries: seq<Entry>)
    ensures Agreeing(remote, preview, entries) <==> Readable(Base(remote, preview), entries)
  {
    var m := Base(remote, preview);
    if Agreeing(remote, preview, entries) {
      forall e | e in entries && e.Offer? && e.role in m ensures m[e.role] == e.url {
        assert Named(remote, preview, entries, e.role, e.url) && Named(remote, preview, entries, e.role, m[e.role]);
      }
      forall e, f | e in entries && f in entries && e.Offer? && f.Offer? && e.role == f.role ensures e.url == f.url {
        assert Named(remote, preview, entries, e.role, e.url) && Named(remote, preview, entries, e.role, f.url);
      }
    }
    if Readable(m, entries) {
      forall role, url, other | Named(remote, preview, entries, role, url) && Named(remote, preview, entries, role, other) ensures url == other {
        if Offer(role, url) in entries { NamedAgree(m, entries, role, url); }
        if Offer(role, other) in entries { NamedAgree(m, entries, role, other); }
      }
    }
  }

  lemma NamedAgree(m: Variants, entries: seq<Entry>, role: string, url: string)
    requires SingleValued(m, entries) && Offer(role, url) in entries
    ensures role in m ==> m[role] == url
    ensures forall e | e in entries && e.Offer? && e.role == role :: e.url == url
  {
    assert Offer(role, url).Offer?;
  }

  lemma UnionNames(remote: string, preview: string, entries: seq<Entry>, union: Variants, role: string)
    requires IsUnion(Base(remote, preview), entries, union)
    ensures role in union ==> Named(remote, preview, entries, role, union[role])
    ensures role !in union ==> Unnamed(remote, preview, entries, role)
  {
    if role !in union {
      forall url ensures !Named(remote, preview, entries, role, url) {
        assert Offer(role, url).Offer?;
      }
    }
  }

  /** With the archive's URL after all others, the map holds exactly the
      variants. */
  lemma UnionIsVariants(remote: string, preview: string, entries: seq<Entry>, union: Variants, archive: Option<string>,
                        role: string)
    requires Agreeing(remote, preview, entries) && IsUnion(Base(remote, preview), entries, union)
    ensures var all := WithArchive(union, archive);
      forall url :: role in all && all[role] == url <==> IsVariant(remote, preview, entries, archive, role, url)
  {
    UnionNames(remote, preview, entries, union, role);
    var all := WithArchive(union, archive);
    forall url ensures role in all && all[role] == url <==> IsVariant(remote, preview, entries, archive, role, url) {
      if role in union && Named(remote, preview, entries, role, url) {
        assert Named(remote, preview, entries, role, union[role]);
      }
    }
  }

  lemma BaseIsUnion(m: Variants)
    ensures IsUnion(m, [], m)
  {
  }

  /** The list the document offers, if it can be read as one. */
  function Listed(document: Document): Option<seq<Entry>> {
    match document
    case Absent => Some([])
    case Unreadable => None
    case Document(NoList, _) => Some([])
    case Document(NotAList, _) => None
    case Document(Entries(entries), _) => Some(entries)
  }

  function ArchiveOf(document: Document): Option<string> {
    if document.Document? then document.archive else None
  }

  /** The first entry that cannot be read decides which error it is. */
  lemma {:induction false} FlawIsFirst(m: Variants, entries: seq<Entry>)
    ensures Read(m, entries).1 == Some(InvalidVariants) <==>
            exists k :: 0 <= k < |entries| && Readable(m, entries[..k]) && entries[k] == Malformed
    ensures Read(m, entries).1 == Some(AmbiguousVariant) <==>
            exists k :: 0 <= k < |entries| && Readable(m, entries[..k]) && entries[k] != Malformed && !Readable(m, entries[..k + 1])
  {
    ReadExactly(m, entries);
    if Read(m, entries).1.None? {
      forall k | 0 <= k < |entries| ensures entries[k] != Malformed && Readable(m, entries[..k + 1]) {
        assert forall e | e in entries[..k + 1] :: e in entries;
      }
    } else {
      var k := FirstUnreadable(m, entries);
      ReadPrefix(m, entries, k);
      forall j | 0 <= j < |entries| && Readable(m, entries[..j]) && (entries[j] == Malformed || !Readable(m, entries[..j + 1])) ensures j == k {
        if j < k { assert forall e | e in entries[..j + 1] :: e in entries[..k]; }
        if k < j { assert forall e | e in entries[..k + 1] :: e in entries[..j]; }
      }
    }
  }

  lemma {:induction false} FirstUnreadable(m: Variants, entries: seq<Entry>) returns (k: nat)
    requires !Readable(m, entries)
    ensures k < |entries| && Readable(m, entries[..k]) && !Readable(m, entries[..k + 1])
    decreases |entries|
  {
    var n := |entries| - 1;
    assert entries[..n + 1] == entries;
    if Readable(m, entries[..n]) {
      k := n;
    } else {
      k := FirstUnreadable(m, entries[..n]);
      assert entries[..n][..k] == entries[..k] && entries[..n][..k + 1] == entries[..k + 1];
    }
  }

  lemma ReadPrefix(m: Variants, entries: seq<Entry>, k: nat)
    requires k < |entries| && Readable(m, entries[..k]) && !Readable(m, entries[..k + 1])
    ensures Read(m, entries).1 == Some(if entries[k] == Malformed then InvalidVariants else AmbiguousVariant)
  {
    var good, bad := entries[..k], entries[..k + 1];
    ReadExactly(m, good);
    ReadExactly(m, bad);
    assert entries == bad + entries[k + 1..] && bad == good + [entries[k]];
    FirstFlawStays(m, bad, entries[k + 1..]);
    if entries[k] == Malformed {
      MalformedNext(m, good, entries[k..k + 1]);
    } else {
      TheOtherFlaw(m, bad);
    }
  }

  lemma {:induction false} MalformedNext(m: Variants, good: seq<Entry>, rest: seq<Entry>)
    requires Read(m, good).1.None? && rest != [] && rest[0] == Malformed
    ensures Read(m, good + rest).1 == Some(InvalidVariants)
    decreases |good|
  {
    if good == [] {
      assert good + rest == rest;
    } else {
      assert (good + rest)[1..] == good[1..] + rest;
      MalformedNext(Added(m, good[0]), good[1..], rest);
    }
  }

  /** Everything before some malformed entry can be read. */
  ghost predicate FirstIsMalformed(remote: string, preview: string, entries: seq<Entry>) {
    exists k :: 0 <= k < |entries| && Agreeing(remote, preview, entries[..k]) && entries[k] == Malformed
  }

  lemma VariantsOf(remote: string, preview: string, document: Document)
    ensures var m := Base(remote, preview);
      && (DocumentOk(m, document) <==> Listed(document).Some? && Agreeing(remote, preview, Listed(document).value))
      && (DocumentOk(m, document) ==> forall union {:trigger IsUnion(m, Listed(document).value, union)} |
            IsUnion(m, Listed(document).value, union) ::
            forall role, url :: role in WithArchive(union, ArchiveOf(document)) && WithArchive(union, ArchiveOf(document))[role] == url <==>
              IsVariant(remote, preview, Listed(document).value, ArchiveOf(document), role, url))
      && IsUnion(m, [], m)
      && (Listed(document).Some? ==>
            (Read(m, Listed(document).value).1 == Some(InvalidVariants) <==> FirstIsMalformed(remote, preview, Listed(document).value)))
  {
    var m := Base(remote, preview);
    BaseIsUnion(m);
    if Listed(document).Some? {
      var entries := Listed(document).value;
      AgreeingIsReadable(remote, preview, entries);
      forall union, role | Agreeing(remote, preview, entries) && IsUnion(m, entries, union)
        ensures forall url :: role in WithArchive(union, ArchiveOf(document)) && WithArchive(union, ArchiveOf(document))[role] == url <==>
                  IsVariant(remote, preview, entries, ArchiveOf(document), role, url)
      {
        UnionIsVariants(remote, preview, entries, union, ArchiveOf(document), role);
      }
      FlawIsFirst(m, entries);
      forall k | 0 <= k < |entries| ensures Agreeing(remote, preview, entries[..k]) <==> Readable(m, entries[..k]) {
        AgreeingIsReadable(remote, preview, entries[..k]);
      }
    }
  }

  method ResolveOccurrenceVariants(remote: string, preview: string, document: Document)
    returns (variants: Variants, flaw: Option<Flaw>)
    ensures flaw.None? <==> DocumentOk(Base(remote, preview), document)
    ensures flaw.None? && document.Document? && document.listing.Entries? ==>
            exists union :: IsUnion(Base(remote, preview), document.listing.entries, union) && variants == WithArchive(union, document.archive)
    ensures flaw.None? && !(document.Document? && document.listing.Entries?) ==>
            variants == WithArchive(Base(remote, preview), if document.Document? then document.archive else None)
    ensures document.Document? && document.listing.Entries? ==> flaw == Read(Base(remote, preview), document.listing.entries).1
    ensures flaw.Some? && document.Document? && document.listing.Entries? ==>
            variants == Read(Base(remote, preview), document.listing.entries).0
    ensures flaw.None? <==> Listed(document).Some? && Agreeing(remote, preview, Listed(document).value)
    ensures flaw.None? ==> forall role, url ::
              role in variants && variants[role] == url <==> IsVariant(remote, preview, Listed(document).value, ArchiveOf(document), role, url)
    ensures flaw.Some? ==>
              flaw == Some(if Listed(document).None? || FirstIsMalformed(remote, preview, Listed(document).value) then InvalidVariants
                           else AmbiguousVariant)
  {
    VariantsOf(remote, preview, document);
    variants := Base(remote, preview);
    match document
    case Absent => return variants, None;
    case Unreadable => return variants, Some(InvalidVariants);
    case Document(NotAList, _) => return variants, Some(InvalidVariants);
    case Document(NoList, archive) => return WithArchive(variants, archive), None;
    case Document(Entries(entries), archive) =>
      ReadExactly(variants, entries);
      ghost var base := variants;
      for k := 0 to |entries|
        invariant Read(base, entries) == Read(variants, entries[k..])
      {
        flaw := FlawOf(variants, entries[k]);
        if flaw.Some? { return; }
        assert entries[k..][1..] == entries[k + 1..];
        variants := Added(variants, entries[k]);
      }
      assert IsUnion(base, entries, variants);
      return WithArchive(variants, archive), None;
  }

  predicate DocumentOk(base: Variants, document: Document) {
    match document
    case Absent => true
    case Unreadable => false
    case Document(listing, _) => listing.NoList? || (listing.Entries? && Readable(base, listing.entries))
  }

  /** Success and the resulting variants do not depend on the order of the entries. */
  lemma OrderIsIrrelevant(m: Variants, a: seq<Entry>, b: seq<Entry>)
    requires multiset(a) == multiset(b)
    ensures Read(m, a).1.None? <==> Read(m, b).1.None?
    ensures Read(m, a).1.None? ==> Read(m, a).0 == Read(m, b).0
  {
    forall e ensures e in a <==> e in b {
      assert e in multiset(a) <==> e in multiset(b);
    }
    ReadExactly(m, a);
    ReadExactly(m, b);
    if Readable(m, a) {
      var left, right := Read(m, a).0, Read(m, b).0;
      forall role | role in left ensures role in right && left[role] == right[role] {
        if !(role in m && m[role] == left[role]) { assert Offer(role, left[role]) in b; }
      }
      forall role | role in right ensures role in left {
        if !(role in m && m[role] == right[role]) { assert Offer(role, right[role]) in a; }
      }
    }
  }

  /** The first flaw decides, so what follows it does not matter. */
  lemma {:induction false} FirstFlawStays(m: Variants, a: seq<Entry>, b: seq<Entry>)
    requires Read(m, a).1.Some?
    ensures Read(m, a + b).1 == Read(m, a).1
    decreases |a|
  {
    assert (a + b)[1..] == a[1..] + b;
    if FlawOf(m, a[0]).None? { FirstFlawStays(Added(m, a[0]), a[1..], b); }
  }

  /** Only a malformed entry is reported as invalid, and only offers that
      disagree as ambiguous. */
  lemma {:induction false} FlawHasCause(m: Variants, entries: seq<Entry>)
    ensures Read(m, entries).1 == Some(InvalidVariants) ==> Malformed in entries
    ensures Read(m, entries).1 == Some(AmbiguousVariant) ==> !SingleValued(m, entries)
    decreases |entries|
  {
    if entries != [] && FlawOf(m, entries[0]).None? {
      var e, rest := entries[0], entries[1..];
      var next := Added(m, e);
      FlawHasCause(next, rest);
      assert forall f | f in rest :: f in entries;
      if SingleValued(m, entries) { assert SingleValued(next, rest); }
    }
  }

  /** What FlawHasCause leaves when one of the causes is missing. */
  lemma TheOtherFlaw(m: Variants, entries: seq<Entry>)
    requires Malformed !in entries || SingleValued(m, entries)
    ensures Read(m, entries).1 == if Readable(m, entries) then None else if Malformed in entries then Some(InvalidVariants) else Some(AmbiguousVariant)
  {
    ReadExactly(m, entries);
    FlawHasCause(m, entries);
    if Read(m, entries).1.Some? {
      match Read(m, entries).1.value
      case InvalidVariants =>
      case AmbiguousVariant =>
    }
  }

  predicate Among(a: seq<Entry>, b: seq<Entry>) {
    multiset(a) == multiset(b)
  }

  /** The well-formed entries can all be read first. */
  lemma {:induction false} WellFormedFirst(entries: seq<Entry>) returns (good: seq<Entry>, bad: seq<Entry>)
    ensures Among(good + bad, entries) && Malformed !in good && forall e | e in bad :: e.Malformed?
    decreases |entries|
  {
    good, bad := [], [];
    if entries != [] {
      var e, rest := entries[0], entries[1..];
      assert entries == [e] + rest;
      var some, others := WellFormedFirst(rest);
      if e.Malformed? {
        good, bad := some, [e] + others;
        assert multiset(good + bad) == multiset(some + others) + multiset{e};
      } else {
        good, bad := [e] + some, others;
        assert good + bad == [e] + (some + others);
      }
    }
  }

  lemma SameMembers(a: seq<Entry>, b: seq<Entry>)
    requires Among(a, b)
    ensures forall e :: e in a <==> e in b
  {
    forall e ensures e in a <==> e in b {
      assert e in multiset(a) <==> e in multiset(b);
    }
  }

  /** Both flaws are there: each of them is the first in some order. */
  lemma EitherFlawFirst(m: Variants, entries: seq<Entry>) returns (malformed: seq<Entry>, ambiguous: seq<Entry>)
    requires Malformed in entries && !SingleValued(m, entries)
    ensures Among(malformed, entries) && Read(m, malformed).1 == Some(InvalidVariants)
    ensures Among(ambiguous, entries) && Read(m, ambiguous).1 == Some(AmbiguousVariant)
  {
    var good, bad := WellFormedFirst(entries);
    SameMembers(good + bad, entries);
    malformed, ambiguous := bad + good, good + bad;
    assert bad != [] && malformed[0] == Malformed;
    assert !SingleValued(m, good) by {
      if SingleValued(m, good) {
        forall e | e in entries && e.Offer? ensures e in good { assert e in good + bad; }
        assert SingleValued(m, entries);
      }
    }
    TheOtherFlaw(m, good);
    FirstFlawStays(m, good, bad);
  }

  /** The reported flaw is the same for every order of the entries exactly when
      there is not both a malformed entry and a role with two URLs. */
  lemma FlawDependsOnOrder(m: Variants, entries: seq<Entry>)
    ensures (forall other | Among(other, entries) :: Read(m, other).1 == Read(m, entries).1) <==>
            !(Malformed in entries && !SingleValued(m, entries))
  {
    if Malformed in entries && !SingleValued(m, entries) {
      var malformed, ambiguous := EitherFlawFirst(m, entries);
      assert Read(m, malformed).1 != Read(m, ambiguous).1;
    } else {
      forall other | Among(other, entries) ensures Read(m, other).1 == Read(m, entries).1 {
        SameMembers(other, entries);
        TheOtherFlaw(m, other);
        TheOtherFlaw(m, entries);
      }
    }
  }

  // ----- the planner's selections -----

  datatype Selection = Selection(occurrence: nat, variant: string)

  predicate Unique(s: seq<Selection>) { forall i, j | 0 <= i < j < |s| :: s[i] != s[j] }

  /** The first occurrences, in their order. */
  function Firsts(s: seq<Selection>): seq<Selection> {
    if s == [] then []
    else
      var front := Firsts(s[..|s| - 1]);
      if s[|s| - 1] in front then front else front + [s[|s| - 1]]
  }

  function Members(s: seq<Selection>): set<Selection> { set x | x in s }

  lemma {:induction false} FirstsAreAll(s: seq<Selection>)
    ensures Unique(Firsts(s)) && Members(Firsts(s)) == Members(s) && |Firsts(s)| == |Members(s)|
  {
    if s != [] {
      var n := |s| - 1;
      FirstsAreAll(s[..n]);
      assert s == s[..n] + [s[n]];
      assert Members(s) == Members(s[..n]) + {s[n]};
      var front := Firsts(s[..n]);
      assert s[n] in front <==> s[n] in Members(s[..n]) by { assert s[n] in front <==> s[n] in Members(front); }
      if s[n] !in front { assert Members(front + [s[n]]) == Members(front) + {s[n]}; }
    }
  }

  /** They are in the order in which they first occur: where one of them stands
      first, no later one has occurred yet. */
  predicate Earlier(s: seq<Selection>, x: Selection, y: Selection) {
    exists k :: 0 <= k < |s| && s[k] == x && y !in s[..k + 1]
  }

  lemma {:induction false} FirstsInOrder(s: seq<Selection>)
    ensures forall i, j | 0 <= i < j < |Firsts(s)| :: Earlier(s, Firsts(s)[i], Firsts(s)[j])
  {
    if s != [] {
      var n := |s| - 1;
      var front := Firsts(s[..n]);
      FirstsInOrder(s[..n]);
      FirstsAreAll(s[..n]);
      forall i, j | 0 <= i < j < |Firsts(s)| ensures Earlier(s, Firsts(s)[i], Firsts(s)[j]) {
        if j < |front| {
          var k :| 0 <= k < n && s[..n][k] == front[i] && front[j] !in s[..n][..k + 1];
          assert s[..n][..k + 1] == s[..k + 1];
        } else {
          assert front[i] in Members(front);
          var k :| 0 <= k < n && s[..n][k] == front[i];
          assert s[n] !in Members(front);
          forall p | 0 <= p <= k ensures s[p] != s[n] { assert s[p] in s[..n]; assert s[p] in Members(s[..n]); }
        }
      }
    }
  }

  /** What the next selection adds. */
  lemma OneMoreSelection(s: seq<Selection>, k: nat)
    requires k < |s|
    ensures Firsts(s[..k + 1]) == if s[k] in Members(s[..k]) then Firsts(s[..k]) else Firsts(s[..k]) + [s[k]]
    ensures Members(s[..k + 1]) == Members(s[..k]) + {s[k]} && Members(s[..k + 1]) <= Members(s)
    ensures |Firsts(s[..k])| == |Members(s[..k])|
  {
    FirstsAreAll(s[..k]);
    assert s[..k + 1][..k] == s[..k] && s[..k + 1] == s[..k] + [s[k]];
    assert s[k] in Firsts(s[..k]) <==> s[k] in Members(Firsts(s[..k]));
  }

  /** The loop of plan_acquisition; false stands for its ValueErrors. */
  method Deduplicate(selections: seq<Selection>, maxItems: nat) returns (ok: bool, unique: seq<Selection>, duplicates: nat)
    ensures ok <==> 0 < |Members(selections)| <= maxItems
    ensures ok ==> unique == Firsts(selections) && |unique| + duplicates == |selections|
    ensures ok ==> Unique(unique) && Members(unique) == Members(selections)
  {
    unique, duplicates := [], 0;
    var seen: set<Selection> := {};
    for k := 0 to |selections|
      invariant unique == Firsts(selections[..k]) && seen == Members(selections[..k])
      invariant |unique| + duplicates == k && |unique| <= maxItems
    {
      OneMoreSelection(selections, k);
      if selections[k] in seen {
        duplicates := duplicates + 1;
      } else if |unique| >= maxItems {
        Smaller(seen + {selections[k]}, Members(selections));
        return false, unique, duplicates;
      } else {
        seen := seen + {selections[k]};
        unique := unique + [selections[k]];
      }
    }
    assert selections[..|selections|] == selections;
    FirstsAreAll(selections);
    ok := unique != [];
  }

  lemma Smaller(a: set<Selection>, b: set<Selection>)
    requires a <= b
    ensures |a| <= |b|
  {
    assert b == a + (b - a);
  }
}
