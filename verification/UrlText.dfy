/** The string operations behind URL resolution: splitting a URL as RFC 3986
    section 3 lays it out (the way urllib.parse does), path segments, queries. */
module UrlText {

  import opened Basics

  predicate IsDigit(c: char) { '0' <= c <= '9' }
  predicate IsLower(c: char) { 'a' <= c <= 'z' }
  predicate IsAlnum(c: char) { IsDigit(c) || IsLower(c) || IsUpper(c) }

  /** str.isspace. */
  predicate IsSpace(c: char) {
    var n := c as int;
    9 <= n <= 13 || 28 <= n <= 32 || n == 0x85 || n == 0xA0 || n == 0x1680 || 0x2000 <= n <= 0x200A
    || n == 0x2028 || n == 0x2029 || n == 0x202F || n == 0x205F || n == 0x3000
  }

  /** Characters urlsplit removes wherever they stand. */
  predicate IsUnsafe(c: char) { c == '\t' || c == '\r' || c == '\n' }


  function StripLeft(s: string): string {
    if s != "" && IsSpace(s[0]) then StripLeft(s[1..]) else s
  }

  function StripRight(s: string): string {
    if s != "" && IsSpace(s[|s| - 1]) then StripRight(s[..|s| - 1]) else s
  }

  function Strip(s: string): string { StripRight(StripLeft(s)) }

  lemma StripKeeps(s: string)
    requires s != "" && !IsSpace(s[0]) && !IsSpace(s[|s| - 1])
    ensures Strip(s) == s
    ensures Strip(s + "\n") == s
  {
    assert (s + "\n")[..|s|] == s;
  }

  /** The WHATWG control characters and spaces at the front. */
  function DropControls(s: string): string {
    if s != "" && s[0] as int <= 32 then DropControls(s[1..]) else s
  }

  function DropUnsafe(s: string): (r: string)
    ensures forall c | c in r :: c in s && !IsUnsafe(c)
  {
    if s == "" then "" else (if IsUnsafe(s[0]) then "" else [s[0]]) + DropUnsafe(s[1..])
  }

  lemma {:induction false} NothingUnsafe(s: string)
    requires forall c | c in s :: !IsUnsafe(c)
    ensures DropUnsafe(s) == s
  {
    if s != "" {
      assert s[0] in s && forall c | c in s[1..] :: c in s;
      NothingUnsafe(s[1..]);
      assert s == [s[0]] + s[1..];
    }
  }

  // ----- partition and split -----

  datatype Cut = Cut(before: string, found: bool, after: string)

  /** str.partition on one character. */
  function Partition(s: string, c: char): (r: Cut)
    ensures c !in r.before && (if r.found then s == r.before + [c] + r.after else s == r.before && r.after == "")
  {
    if s == "" then Cut("", false, "")
    else if s[0] == c then Cut("", true, s[1..])
    else var r := Partition(s[1..], c); Cut([s[0]] + r.before, r.found, r.after)
  }

  lemma {:induction false} PartitionAt(a: string, c: char, b: string)
    requires c !in a
    ensures Partition(a + [c] + b, c) == Cut(a, true, b)
  {
    if a == "" {
      assert (a + [c] + b)[1..] == b;
    } else {
      assert a[0] in a && forall x | x in a[1..] :: x in a;
      PartitionAt(a[1..], c, b);
      assert (a + [c] + b)[1..] == a[1..] + [c] + b;
    }
  }

  lemma PartitionNone(a: string, c: char)
    requires c !in a
    ensures Partition(a, c) == Cut(a, false, "")
  {
  }

  /** What follows the last c, or everything. */
  function AfterLast(s: string, c: char): string {
    if s == "" || s[|s| - 1] == c then "" else AfterLast(s[..|s| - 1], c) + [s[|s| - 1]]
  }

  lemma {:induction false} AfterLastNone(s: string, c: char)
    requires c !in s
    ensures AfterLast(s, c) == s
  {
    if s != "" {
      assert s[|s| - 1] in s && forall x | x in s[..|s| - 1] :: x in s;
      AfterLastNone(s[..|s| - 1], c);
      assert s == s[..|s| - 1] + [s[|s| - 1]];
    }
  }

  function SplitAll(s: string, c: char): seq<string>
    decreases |s|
  {
    var cut := Partition(s, c);
    if cut.found then [cut.before] + SplitAll(cut.after, c) else [s]
  }

  lemma SplitFirst(a: string, c: char, b: string)
    requires c !in a
    ensures SplitAll(a + [c] + b, c) == [a] + SplitAll(b, c)
  {
    PartitionAt(a, c, b);
  }

  function NonEmpty(parts: seq<string>): seq<string> {
    if parts == [] then [] else (if parts[0] == "" then [] else [parts[0]]) + NonEmpty(parts[1..])
  }

  /** The non-empty segments of a path. */
  function Segments(path: string): seq<string> { NonEmpty(SplitAll(path, '/')) }

  lemma NonEmptyStep(x: string, parts: seq<string>)
    ensures NonEmpty([x] + parts) == (if x == "" then [] else [x]) + NonEmpty(parts)
  {
    assert ([x] + parts)[1..] == parts;
  }

  lemma SegmentsAfterSlash(rest: string)
    ensures Segments("/" + rest) == Segments(rest)
  {
    SplitFirst("", '/', rest);
    assert "/" + rest == "" + ['/'] + rest;
    NonEmptyStep("", SplitAll(rest, '/'));
  }

  /** A path read back segment by segment. */
  lemma SegmentsStep(a: string, rest: string)
    requires a != "" && '/' !in a && (rest == "" || rest[0] == '/')
    ensures Segments("/" + a + rest) == [a] + Segments(rest)
  {
    assert "/" + a + rest == "/" + (a + rest);
    SegmentsAfterSlash(a + rest);
    if rest == "" {
      assert a + rest == a;
      OneSegment(a);
    } else {
      assert rest == "/" + rest[1..] && a + rest == a + "/" + rest[1..];
      MoreSegments(a, rest[1..]);
    }
  }

  lemma OneSegment(a: string)
    requires a != "" && '/' !in a
    ensures Segments(a) == [a] && Segments("") == []
  {
    PartitionNone(a, '/');
    NonEmptyStep(a, []);
    NonEmptyStep("", []);
    assert SplitAll("", '/') == [""] + [] && SplitAll(a, '/') == [a] + [];
  }

  lemma MoreSegments(a: string, more: string)
    requires a != "" && '/' !in a
    ensures Segments(a + "/" + more) == [a] + Segments("/" + more)
  {
    SplitFirst(a, '/', more);
    NonEmptyStep(a, SplitAll(more, '/'));
    SegmentsAfterSlash(more);
  }

  // ----- urlsplit -----

  datatype Parts = Parts(scheme: string, netloc: string, path: string, query: string, fragment: string)

  predicate IsSchemeChar(c: char) { IsAlnum(c) || c == '+' || c == '-' || c == '.' }

  predicate IsScheme(s: string) {
    s != "" && (IsLower(s[0]) || IsUpper(s[0])) && forall c | c in s :: IsSchemeChar(c)
  }

  predicate EndsNetloc(c: char) { c == '/' || c == '?' || c == '#' }

  /** The number of characters before the first of / ? #. */
  function NetlocLength(s: string): (n: nat)
    ensures n <= |s|
  {
    if s == "" || EndsNetloc(s[0]) then 0 else 1 + NetlocLength(s[1..])
  }

  lemma {:induction false} NetlocEnds(host: string, rest: string)
    requires (forall c | c in host :: !EndsNetloc(c)) && rest != "" && EndsNetloc(rest[0])
    ensures NetlocLength(host + rest) == |host|
  {
    if host == "" {
      assert host + rest == rest;
    } else {
      assert host[0] in host && forall c | c in host[1..] :: c in host;
      NetlocEnds(host[1..], rest);
      assert (host + rest)[1..] == host[1..] + rest;
    }
  }

  /** The lower-cased scheme, and what follows its colon. */
  function SchemeCut(s: string): (string, string) {
    var cut := Partition(s, ':');
    if cut.found && IsScheme(cut.before) then (Lower(cut.before), cut.after) else ("", s)
  }

  /** The network location after "//", and the rest. */
  function NetlocCut(s: string): (string, string) {
    if "//" <= s then (s[2..2 + NetlocLength(s[2..])], s[2 + NetlocLength(s[2..])..]) else ("", s)
  }

  /** Path, query and fragment. */
  function TailCut(s: string): (string, string, string) {
    var fragment := Partition(s, '#');
    var query := Partition(fragment.before, '?');
    (query.before, query.after, fragment.after)
  }

  /** urlsplit; None stands for its ValueError. A bracketed host is an IP literal,
      which no platform has, and is refused here. */
  function UrlSplit(text: string): Option<Parts> {
    var s := DropUnsafe(DropControls(text));
    var scheme := SchemeCut(s);
    var netloc := NetlocCut(scheme.1);
    var tail := TailCut(netloc.1);
    if '[' in netloc.0 || ']' in netloc.0 then None
    else Some(Parts(scheme.0, netloc.0, tail.0, tail.1, tail.2))
  }

  /** SplitResult.hostname, empty when there is none. */
  function HostName(netloc: string): string { Lower(Partition(AfterLast(netloc, '@'), ':').before) }

  predicate IsHostChar(c: char) { IsDigit(c) || IsLower(c) || c == '.' }
  predicate IsHostText(s: string) { s != "" && forall c | c in s :: IsHostChar(c) }
  /** Plain text of a path or a query: no delimiter, nothing urlsplit removes. */
  predicate IsPlainText(s: string) { forall c | c in s :: c != '?' && c != '#' && !IsUnsafe(c) }

  function Printed(host: string, path: string, query: string): string {
    "https://" + host + path + if query == "" then "" else "?" + query
  }

  lemma HostTextReadsBack(host: string)
    requires IsHostText(host)
    ensures HostName(host) == host
  {
    assert '@' !in host && ':' !in host;
    AfterLastNone(host, '@');
    PartitionNone(host, ':');
    LowerSame(host);
  }

  function Tail(path: string, query: string): string { path + if query == "" then "" else "?" + query }

  lemma TailReadsBack(path: string, query: string)
    requires IsPlainText(path) && IsPlainText(query)
    ensures TailCut(Tail(path, query)) == (path, query, "")
  {
    var tail := Tail(path, query);
    PartitionNone(tail, '#');
    if query == "" {
      assert tail == path;
      PartitionNone(path, '?');
    } else {
      PartitionAt(path, '?', query);
      assert tail == path + ['?'] + query;
    }
  }

  lemma SchemeReadsBack(rest: string)
    ensures SchemeCut("https:" + rest) == ("https", rest)
  {
    PartitionAt("https", ':', rest);
    assert "https:" + rest == "https" + [':'] + rest;
    LowerSame("https");
  }

  lemma NetlocReadsBack(host: string, rest: string)
    requires IsHostText(host) && rest != "" && EndsNetloc(rest[0])
    ensures NetlocCut("//" + host + rest) == (host, rest)
  {
    var s := "//" + host + rest;
    assert s[2..] == host + rest;
    NetlocEnds(host, rest);
  }

  lemma PrintedIsClean(host: string, path: string, query: string)
    requires IsHostText(host) && IsPlainText(path) && IsPlainText(query)
    ensures DropUnsafe(DropControls(Printed(host, path, query))) == Printed(host, path, query)
  {
    var tail := Tail(path, query);
    var s := "https://" + host + tail;
    assert s == Printed(host, path, query);
    forall c | c in tail ensures !IsUnsafe(c) { assert c in path || c in query || c == '?'; }
    forall c | c in s ensures !IsUnsafe(c) { assert c in "https://" || c in host || c in tail; }
    NothingUnsafe(s);
    assert s[0] == 'h';
  }

  /** Splitting what was printed gives the printed parts. */
  lemma PrintedSplits(host: string, path: string, query: string)
    requires IsHostText(host) && IsPlainText(path) && IsPlainText(query) && path != "" && path[0] == '/'
    ensures UrlSplit(Printed(host, path, query)) == Some(Parts("https", host, path, query, ""))
  {
    var tail := Tail(path, query);
    PrintedIsClean(host, path, query);
    PrintedText(host, path, query);
    SchemeReadsBack("//" + host + tail);
    NetlocReadsBack(host, tail);
    TailReadsBack(path, query);
    SplitBySteps(Printed(host, path, query), "https", "//" + host + tail, host, tail, path, query);
  }

  lemma PrintedText(host: string, path: string, query: string)
    ensures Printed(host, path, query) == "https:" + ("//" + host + Tail(path, query))
  {
  }

  lemma SplitBySteps(text: string, scheme: string, rest: string, host: string, tail: string, path: string, query: string)
    requires DropUnsafe(DropControls(text)) == text && SchemeCut(text) == (scheme, rest) && NetlocCut(rest) == (host, tail)
    requires TailCut(tail) == (path, query, "") && IsHostText(host)
    ensures UrlSplit(text) == Some(Parts(scheme, host, path, query, ""))
  {
    assert '[' !in host && ']' !in host;
  }
}
