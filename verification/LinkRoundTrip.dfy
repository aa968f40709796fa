/** A resolved link's canonical URL is read back, except in one case. */
module LinkRoundTrip {

  import opened Basics
  import opened UrlText
  import opened QueryText
  import opened LinkResolution

  // ----- the forms a resolved link can have -----

  predicate PathPost(l: ResolvedLink, host: string) {
    && ((host in DANBOORU_HOSTS && l.platform == DANBOORU_HOSTS[host]) || (host in E621_HOSTS && l.platform == E621_HOSTS[host]))
    && IsPostDigits(l.target) && l == PostOnHost(l.platform, host, l.target)
  }

  predicate QueryPost(l: ResolvedLink, host: string) {
    && host in GELBOORU_HOSTS && MatchesDigits(l.target)
    && l == GelbooruPost(GELBOORU_HOSTS[host], CanonicalGelbooruHost(host), l.target)
  }

  predicate ServicePost(l: ResolvedLink, service: string, user: string, id: string) {
    IsServiceWord(service) && IsPostDigits(user) && IsPostDigits(id) && l == PawchivePost(service, user, id)
  }

  predicate IsPixiv(l: ResolvedLink) { MatchesDigits(l.target) && l == PixivPost(l.target) }
  predicate IsSankaku(l: ResolvedLink) { IsSankakuWord(l.target) && l == PostOnHost("sankaku", "sankaku.app", l.target) }

  ghost predicate IsCanonical(l: ResolvedLink) {
    || (exists host :: PathPost(l, host))
    || (exists host :: QueryPost(l, host))
    || IsPixiv(l) || IsSankaku(l)
    || (exists service, user, id :: ServicePost(l, service, user, id))
  }

  // ----- what resolution can return -----

  predicate NoNewline(s: string) { '\n' !in s }

  lemma {:induction false} SplitClean(s: string, c: char)
    requires NoNewline(s)
    ensures forall part | part in SplitAll(s, c) :: NoNewline(part)
    decreases |s|
  {
    var cut := Partition(s, c);
    if cut.found { SplitClean(cut.after, c); }
  }

  lemma {:induction false} NonEmptyClean(parts: seq<string>)
    requires forall part | part in parts :: NoNewline(part)
    ensures forall part | part in NonEmpty(parts) :: NoNewline(part)
  {
    if parts != [] { NonEmptyClean(parts[1..]); }
  }

  lemma {:induction false} WithoutClean(parts: seq<string>, drop: string -> bool)
    requires forall part | part in parts :: NoNewline(part)
    ensures forall part | part in Without(parts, drop) :: NoNewline(part)
  {
    if parts != [] { WithoutClean(parts[1..], drop); }
  }

  lemma PathClean(url: string)
    requires UrlSplit(url).Some?
    ensures NoNewline(UrlSplit(url).value.path)
  {
    var s := DropUnsafe(DropControls(url));
    assert NoNewline(s);
    var scheme := SchemeCut(s);
    assert NoNewline(scheme.1);
    var netloc := NetlocCut(scheme.1);
    assert NoNewline(netloc.1);
  }

  lemma PostsFamilyForm(platform: string, host: string, segments: seq<string>)
    requires forall part | part in segments :: NoNewline(part)
    requires PostsFamily(platform, host, segments).Some?
    ensures var l := PostsFamily(platform, host, segments).value; l == PostOnHost(platform, host, l.target) && IsPostDigits(l.target)
  {
    var path := PostPath(segments);
    assert path[1] in segments;
    var id := Suffixless(path[1]);
    assert NoNewline(id);
  }

  lemma SankakuForm(path: seq<string>)
    requires (forall part | part in path :: NoNewline(part)) && Sankaku(path).Some?
    ensures IsSankaku(Sankaku(path).value)
  {
    WithoutClean(path, IsAnyLocale());
    var segments := Without(path, IsAnyLocale());
    assert segments[1] in segments;
    assert NoNewline(Suffixless(segments[1]));
  }

  lemma PawchiveForm(path: seq<string>)
    requires (forall part | part in path :: NoNewline(part)) && Pawchive(path).Some?
    ensures ServicePost(Pawchive(path).value, path[0], path[2], path[4])
  {
    assert path[0] in path && path[2] in path && path[4] in path;
  }

  lemma PartsAreCanonical(host: string, path: seq<string>, query: seq<Pair>)
    requires (forall part | part in path :: NoNewline(part)) && ResolveParts(host, path, query).Some?
    ensures IsCanonical(ResolveParts(host, path, query).value)
  {
    var l := ResolveParts(host, path, query).value;
    if host in GELBOORU_HOSTS {
      assert QueryPost(l, host);
    } else if host in DANBOORU_HOSTS {
      WithoutClean(path, IsEnOrJa());
      PostsFamilyForm(DANBOORU_HOSTS[host], host, Without(path, IsEnOrJa()));
      assert PathPost(l, host);
    } else if host in E621_HOSTS {
      WithoutClean(path, IsEn());
      PostsFamilyForm(E621_HOSTS[host], host, Without(path, IsEn()));
      assert PathPost(l, host);
    } else {
      OtherParts(host, path, query);
    }
  }

  lemma OtherParts(host: string, path: seq<string>, query: seq<Pair>)
    requires (forall part | part in path :: NoNewline(part)) && ResolveParts(host, path, query).Some?
    requires host !in GELBOORU_HOSTS && host !in DANBOORU_HOSTS && host !in E621_HOSTS
    ensures IsCanonical(ResolveParts(host, path, query).value)
  {
    if host == "www.pixiv.net" || host == "pixiv.net" {
      assert IsPixiv(Pixiv(path, query).value);
    } else if host == "sankaku.app" || host == "chan.sankakucomplex.com" {
      SankakuForm(path);
    } else {
      PawchiveForm(path);
    }
  }

  lemma ResolvedIsCanonical(url: string)
    requires Resolve(url).Some?
    ensures IsCanonical(Resolve(url).value)
  {
    var parts := UrlSplit(Strip(url)).value;
    PathClean(Strip(url));
    SplitClean(parts.path, '/');
    NonEmptyClean(SplitAll(parts.path, '/'));
    PartsAreCanonical(HostName(parts.netloc), Segments(parts.path), ParseQuery(parts.query, false));
  }

  // ----- reading a canonical URL back -----

  /** Printed parts resolve by host, segments and query; a final newline is stripped. */
  lemma ResolvePrinted(host: string, path: string, query: string, last: char)
    requires IsHostText(host) && IsPlainText(path) && IsPlainText(query) && path != "" && path[0] == '/'
    requires Printed(host, path, query)[|Printed(host, path, query)| - 1] == last && !IsSpace(last)
    ensures Resolve(Printed(host, path, query)) == ResolveParts(host, Segments(path), ParseQuery(query, false))
    ensures Resolve(Printed(host, path, query) + "\n") == ResolveParts(host, Segments(path), ParseQuery(query, false))
  {
    var s := Printed(host, path, query);
    assert s[0] == 'h';
    StripKeeps(s);
    PrintedSplits(host, path, query);
    HostTextReadsBack(host);
  }

  lemma EmptyReads()
    ensures Segments("") == [] && ParseQuery("", false) == []
  {
    assert SplitAll("", '/') == [""] + [] && SplitAll("", '&') == [""] + [];
    NonEmptyStep("", []);
    assert Fields([""], false) == Field("", false) + Fields([""][1..], false);
  }

  predicate IsSegment(s: string) { s != "" && '/' !in s && IsPlainText(s) }

  lemma TwoSegments(a: string, b: string)
    requires IsSegment(a) && IsSegment(b)
    ensures Segments("/" + a + "/" + b) == [a, b]
  {
    SegmentsStep(a, "/" + b);
    assert "/" + a + "/" + b == "/" + a + ("/" + b);
    SegmentsStep(b, "");
    assert "/" + b == "/" + b + "";
    EmptyReads();
  }

  function TwoPart(host: string, a: string, b: string): string { "https://" + host + "/" + a + "/" + b }

  lemma ResolveTwo(host: string, a: string, b: string)
    requires IsHostText(host) && IsSegment(a) && IsSegment(b) && !IsSpace(b[|b| - 1])
    ensures Resolve(TwoPart(host, a, b)) == ResolveParts(host, [a, b], [])
    ensures Resolve(TwoPart(host, a, b) + "\n") == ResolveParts(host, [a, b], [])
  {
    var path := "/" + a + "/" + b;
    assert TwoPart(host, a, b) == Printed(host, path, "");
    ResolvePrinted(host, path, "", b[|b| - 1]);
    TwoSegments(a, b);
    EmptyReads();
  }

  lemma KeepsTwo(a: string, b: string, drop: string -> bool)
    requires !drop(a) && !drop(b)
    ensures Without([a, b], drop) == [a, b]
  {
    assert [a, b] == [a] + [b] && [a, b][1..] == [b] && [b][1..] == [];
    assert Without([b], drop) == [b] + Without([], drop);
  }

  lemma DigitsAreText(id: string)
    requires IsPostDigits(id)
    ensures IsSegment(id) && IsWord(id) && !IsSpace(id[|id| - 1]) && WithoutNewline(id) == id && Suffixless(id) == id
    ensures id != "en" && id != "ja" && !EndsInNewline(id)
  {
    assert id[|id| - 1] in id;
  }

  lemma WordIsText(id: string)
    requires IsSankakuWord(id)
    ensures IsSegment(id) && !IsSpace(id[|id| - 1]) && WithoutNewline(id) == id && Suffixless(id) == id && !IsLocale(id)
  {
    assert forall k | 0 <= k < |id| :: id[k] in id;
    if |id| >= 5 { assert id[|id| - 5..][0] == id[|id| - 5]; }
  }

  lemma PathHosts(host: string)
    requires host in DANBOORU_HOSTS || host in E621_HOSTS
    ensures IsHostText(host) && host !in GELBOORU_HOSTS
  {
    if host in DANBOORU_HOSTS { DanbooruHost(host); } else { E621Host(host); }
  }

  lemma DanbooruHost(host: string)
    requires host in DANBOORU_HOSTS
    ensures IsHostText(host) && host !in GELBOORU_HOSTS
  {
  }

  lemma E621Host(host: string)
    requires host in E621_HOSTS
    ensures IsHostText(host) && host !in GELBOORU_HOSTS
  {
  }

  lemma PathPostParts(l: ResolvedLink, host: string)
    requires PathPost(l, host)
    ensures ResolveParts(host, ["posts", l.target], []) == Some(l)
  {
    PathHosts(host);
    DigitsAreText(l.target);
    KeepsTwo("posts", l.target, IsEnOrJa());
    KeepsTwo("posts", l.target, IsEn());
  }

  lemma PostsUrl(host: string, id: string)
    ensures "https://" + host + "/posts/" + id == TwoPart(host, "posts", id)
  {
    assert "/posts/" == "/" + "posts" + "/";
  }

  lemma PixivUrl(id: string)
    ensures "https://www.pixiv.net/artworks/" + id == TwoPart("www.pixiv.net", "artworks", id)
  {
    assert "https://www.pixiv.net/artworks/" == "https://" + "www.pixiv.net" + "/" + "artworks" + "/";
  }

  lemma PathPostReadsBack(l: ResolvedLink, host: string)
    requires PathPost(l, host)
    ensures Resolve(l.canonicalUrl) == Some(l)
  {
    PathHosts(host);
    DigitsAreText(l.target);
    ResolveTwo(host, "posts", l.target);
    PostsUrl(host, l.target);
    PathPostParts(l, host);
  }

  lemma SankakuParts(l: ResolvedLink)
    requires IsSankaku(l)
    ensures ResolveParts("sankaku.app", ["posts", l.target], []) == Some(l)
  {
    WordIsText(l.target);
    KeepsTwo("posts", l.target, IsAnyLocale());
  }

  lemma SankakuReadsBack(l: ResolvedLink)
    requires IsSankaku(l)
    ensures Resolve(l.canonicalUrl) == Some(l)
  {
    WordIsText(l.target);
    ResolveTwo("sankaku.app", "posts", l.target);
    PostsUrl("sankaku.app", l.target);
    SankakuParts(l);
  }

  lemma PixivParts(l: ResolvedLink)
    requires IsPixiv(l) && !EndsInNewline(l.target)
    ensures ResolveParts("www.pixiv.net", ["artworks", l.target], []) == Some(l)
  {
    DigitsAreText(l.target);
    KeepsTwo("artworks", l.target, IsEn());
  }

  lemma PixivReadsBack(l: ResolvedLink)
    requires IsPixiv(l) && !EndsInNewline(l.target)
    ensures Resolve(l.canonicalUrl) == Some(l)
    ensures Resolve(l.canonicalUrl + "\n") == Some(l)
  {
    DigitsAreText(l.target);
    ResolveTwo("www.pixiv.net", "artworks", l.target);
    PixivUrl(l.target);
    PixivParts(l);
  }

  function ThreePairs(a: Pair, b: Pair, c: Pair): string {
    a.0 + "=" + a.1 + "&" + (b.0 + "=" + b.1 + "&" + (c.0 + "=" + c.1))
  }

  lemma ThreePairsReadBack(a: Pair, b: Pair, c: Pair, keepBlank: bool)
    requires IsWord(a.0) && IsWord(a.1) && IsWord(b.0) && IsWord(b.1) && IsWord(c.0) && IsWord(c.1)
    ensures ParseQuery(ThreePairs(a, b, c), keepBlank) == [a, b, c]
  {
    var last := c.0 + "=" + c.1;
    var middle := b.0 + "=" + b.1 + "&" + last;
    PairReadsBack(a.0, a.1, middle, keepBlank);
    PairReadsBack(b.0, b.1, last, keepBlank);
    PairReadsBack(c.0, c.1, "", keepBlank);
  }

  lemma PostViewText(id: string)
    ensures "page=post&s=view&id=" + id == ThreePairs(("page", "post"), ("s", "view"), ("id", id))
  {
  }

  lemma PostViewQuery(id: string, keepBlank: bool)
    requires IsWord(id)
    ensures ParseQuery("page=post&s=view&id=" + id, keepBlank) == [("page", "post"), ("s", "view"), ("id", id)]
  {
    PostViewText(id);
    ThreePairsReadBack(("page", "post"), ("s", "view"), ("id", id), keepBlank);
  }

  lemma LastOfThree(a: Pair, b: Pair, c: Pair)
    requires a.0 != b.0 && b.0 != c.0 && a.0 != c.0
    ensures LastValue([a, b, c], a.0) == a.1 && LastValue([a, b, c], b.0) == b.1 && LastValue([a, b, c], c.0) == c.1
  {
    var two, one := [a, b], [a];
    assert [a, b, c][..2] == two && two[..1] == one && one[..0] == [];
    assert LastValue(two, a.0) == LastValue(one, a.0) == a.1;
  }

  lemma QueryHosts(host: string)
    requires host in GELBOORU_HOSTS
    ensures var c := CanonicalGelbooruHost(host);
      IsHostText(c) && c in GELBOORU_HOSTS && GELBOORU_HOSTS[c] == GELBOORU_HOSTS[host] && CanonicalGelbooruHost(c) == c
  {
  }

  lemma QueryPostParts(l: ResolvedLink, host: string, segments: seq<string>)
    requires QueryPost(l, host) && !EndsInNewline(l.target)
    ensures ResolveParts(CanonicalGelbooruHost(host), segments, [("page", "post"), ("s", "view"), ("id", l.target)]) == Some(l)
  {
    QueryHosts(host);
    LastOfThree(("page", "post"), ("s", "view"), ("id", l.target));
  }

  lemma QueryPostReadsBack(l: ResolvedLink, host: string)
    requires QueryPost(l, host) && !EndsInNewline(l.target)
    ensures Resolve(l.canonicalUrl) == Some(l)
    ensures Resolve(l.canonicalUrl + "\n") == Some(l)
  {
    var id, canonical := l.target, CanonicalGelbooruHost(host);
    QueryHosts(host);
    DigitsAreText(id);
    var path, query := "/index.php", "page=post&s=view&id=" + id;
    PrintedQuery(canonical, id);
    ResolvePrinted(canonical, path, query, id[|id| - 1]);
    PostViewQuery(id, false);
    QueryPostParts(l, host, Segments(path));
  }

  lemma PrintedQuery(host: string, id: string)
    requires id != "" && IsPlainText(id)
    ensures "https://" + host + "/index.php?page=post&s=view&id=" + id == Printed(host, "/index.php", "page=post&s=view&id=" + id)
    ensures IsPlainText("page=post&s=view&id=" + id) && IsPlainText("/index.php")
  {
    PlainJoin("page=post&s=view&id=", id);
    ViewText();
    PrintedJoin(host, "/index.php", "page=post&s=view&id=", id);
  }

  lemma ViewText()
    ensures "/index.php?page=post&s=view&id=" == "/index.php" + ("?" + "page=post&s=view&id=")
  {
  }

  lemma PrintedJoin(host: string, path: string, prefix: string, id: string)
    requires id != ""
    ensures "https://" + host + (path + ("?" + prefix)) + id == Printed(host, path, prefix + id)
  {
  }

  lemma PlainJoin(a: string, b: string)
    requires IsPlainText(a) && IsPlainText(b)
    ensures IsPlainText(a + b)
  {
    forall c | c in a + b ensures c != '?' && c != '#' && !IsUnsafe(c) { assert c in a || c in b; }
  }

  lemma FiveSegments(a: string, b: string, c: string, d: string, e: string)
    requires IsSegment(a) && IsSegment(b) && IsSegment(c) && IsSegment(d) && IsSegment(e)
    ensures Segments("/" + a + "/" + b + "/" + c + "/" + d + "/" + e) == [a, b, c, d, e]
  {
    var three := "/" + c + "/" + d + "/" + e;
    ThreeSegments(c, d, e);
    SegmentsStep(b, three);
    SegmentsStep(a, "/" + b + three);
    Regroup("/" + a + "/" + b, c, d, e);
    assert "/" + a + "/" + b + three == "/" + a + ("/" + b + three);
  }

  lemma Regroup(front: string, c: string, d: string, e: string)
    ensures front + "/" + c + "/" + d + "/" + e == front + ("/" + c + "/" + d + "/" + e)
  {
  }

  lemma ThreeSegments(c: string, d: string, e: string)
    requires IsSegment(c) && IsSegment(d) && IsSegment(e)
    ensures Segments("/" + c + "/" + d + "/" + e) == [c, d, e]
  {
    TwoSegments(d, e);
    SegmentsStep(c, "/" + d + "/" + e);
    assert "/" + c + "/" + d + "/" + e == "/" + c + ("/" + d + "/" + e);
  }

  function FivePath(a: string, b: string, c: string, d: string, e: string): string {
    "/" + a + "/" + b + "/" + c + "/" + d + "/" + e
  }

  lemma ServiceUrl(service: string, user: string, id: string)
    ensures PawchivePost(service, user, id).canonicalUrl == Printed("pawchive.pw", FivePath(service, "user", user, "post", id), "")
  {
    assert "/user/" == "/" + "user" + "/" && "/post/" == "/" + "post" + "/" && "https://pawchive.pw/" == "https://" + "pawchive.pw" + "/";
  }

  lemma FivePathIsText(a: string, b: string, c: string, d: string, e: string)
    requires IsSegment(a) && IsSegment(b) && IsSegment(c) && IsSegment(d) && IsSegment(e)
    ensures IsPlainText(FivePath(a, b, c, d, e))
  {
    forall x | x in FivePath(a, b, c, d, e) ensures x != '?' && x != '#' && !IsUnsafe(x) {
      assert x == '/' || x in a || x in b || x in c || x in d || x in e;
    }
  }

  /** A five-segment URL resolves by its host and its segments. */
  lemma ResolveFive(host: string, a: string, b: string, c: string, d: string, e: string)
    requires IsHostText(host)
    requires IsSegment(a) && IsSegment(b) && IsSegment(c) && IsSegment(d) && IsSegment(e) && !IsSpace(e[|e| - 1])
    ensures Resolve(Printed(host, FivePath(a, b, c, d, e), "")) == ResolveParts(host, [a, b, c, d, e], [])
  {
    FivePathIsText(a, b, c, d, e);
    ResolvePrinted(host, FivePath(a, b, c, d, e), "", e[|e| - 1]);
    FiveSegments(a, b, c, d, e);
    EmptyReads();
  }

  lemma ServiceParts(service: string, user: string, id: string)
    requires IsServiceWord(service) && IsPostDigits(user) && IsPostDigits(id)
    ensures ResolveParts("pawchive.pw", [service, "user", user, "post", id], []) == Some(PawchivePost(service, user, id))
  {
    DigitsAreText(user);
    DigitsAreText(id);
    assert service[|service| - 1] in service;
  }

  lemma ServicePostReadsBack(l: ResolvedLink, service: string, user: string, id: string)
    requires ServicePost(l, service, user, id)
    ensures Resolve(l.canonicalUrl) == Some(l)
  {
    DigitsAreText(user);
    DigitsAreText(id);
    ServiceUrl(service, user, id);
    ResolveFive("pawchive.pw", service, "user", user, "post", id);
    ServiceParts(service, user, id);
  }

  // ----- the theorem -----

  lemma NewlineLast(prefix: string, t: string)
    requires EndsInNewline(t)
    ensures prefix + t == prefix + WithoutNewline(t) + "\n"
  {
  }

  lemma QueryNewlineIsLost(l: ResolvedLink, host: string)
    requires QueryPost(l, host) && EndsInNewline(l.target)
    ensures Resolve(l.canonicalUrl) != Some(l)
  {
    var id := WithoutNewline(l.target);
    DigitsAreText(id);
    var m := GelbooruPost(l.platform, CanonicalGelbooruHost(host), id);
    QueryPostReadsBack(m, host);
    NewlineLast("https://" + CanonicalGelbooruHost(host) + "/index.php?page=post&s=view&id=", l.target);
  }

  lemma PixivNewlineIsLost(l: ResolvedLink)
    requires IsPixiv(l) && EndsInNewline(l.target)
    ensures Resolve(l.canonicalUrl) != Some(l)
  {
    var m := PixivPost(WithoutNewline(l.target));
    DigitsAreText(m.target);
    PixivReadsBack(m);
    NewlineLast("https://www.pixiv.net/artworks/", l.target);
  }

  /** What a pattern's `$` lets through is lost by the next strip(). */
  lemma NewlineIsLost(l: ResolvedLink)
    requires IsCanonical(l) && EndsInNewline(l.target)
    ensures Resolve(l.canonicalUrl) != Some(l)
  {
    if host :| QueryPost(l, host) {
      QueryNewlineIsLost(l, host);
    } else if IsPixiv(l) {
      PixivNewlineIsLost(l);
    } else {
      OthersEndInText(l);
    }
  }

  lemma OthersEndInText(l: ResolvedLink)
    requires IsCanonical(l) && !IsPixiv(l) && !exists host :: QueryPost(l, host)
    ensures !EndsInNewline(l.target)
  {
    if host :| PathPost(l, host) {
      DigitsAreText(l.target);
    } else if service, user, id :| ServicePost(l, service, user, id) {
      DigitsAreText(id);
    } else {
      assert l.target[|l.target| - 1] in l.target;
    }
  }

  /** Resolving the canonical URL of a resolved link gives the same platform,
      target and canonical URL exactly when the target ends in no newline. */
  lemma RoundTrip(url: string)
    requires Resolve(url).Some?
    ensures var l := Resolve(url).value; Resolve(l.canonicalUrl) == Some(l) <==> !EndsInNewline(l.target)
  {
    ResolvedIsCanonical(url);
    var l := Resolve(url).value;
    if EndsInNewline(l.target) {
      NewlineIsLost(l);
    } else if host :| PathPost(l, host) {
      PathPostReadsBack(l, host);
    } else if host :| QueryPost(l, host) {
      QueryPostReadsBack(l, host);
    } else if IsPixiv(l) {
      PixivReadsBack(l);
    } else if IsSankaku(l) {
      SankakuReadsBack(l);
    } else {
      var service, user, id :| ServicePost(l, service, user, id);
      ServicePostReadsBack(l, service, user, id);
    }
  }

  lemma {:induction false} UnquoteEscaped(id: string)
    requires forall c | c in id :: IsAlnum(c)
    ensures Unquote(id + "%0A") == id + "\n"
  {
    var s := id + "%0A";
    if id == "" {
      assert s == "%0A" && s[3..] == "" && Unquote(s[3..]) == "";
    } else {
      assert id[0] in id && forall c | c in id[1..] :: c in id;
      UnquoteEscaped(id[1..]);
      assert s[1..] == id[1..] + "%0A";
      assert id == [id[0]] + id[1..];
    }
  }

  lemma EscapedField(name: string, id: string)
    requires IsWord(name) && IsWord(id)
    ensures ParseQuery(name + "=" + (id + "%0A"), false) == [(name, id + "\n")]
  {
    var value := id + "%0A";
    var text := name + "=" + value;
    PartitionAt(name, '=', value);
    UnquotePlain(name);
    UnquoteEscaped(id);
    assert '&' !in text by {
      forall c | c in text ensures c != '&' { assert c in name || c in id || c in "=%0A"; }
    }
    PartitionNone(text, '&');
    assert SplitAll(text, '&') == [text] && [text][1..] == [];
    assert Fields([text], false) == Field(text, false) + Fields([], false);
  }

  lemma EscapedQuery(a: Pair, b: Pair, name: string, id: string)
    requires IsWord(a.0) && IsWord(a.1) && IsWord(b.0) && IsWord(b.1) && IsWord(name) && IsWord(id)
    ensures ParseQuery(ThreePairs(a, b, (name, id + "%0A")), false) == [a, b, (name, id + "\n")]
  {
    var last := name + "=" + (id + "%0A");
    EscapedField(name, id);
    PairReadsBack(b.0, b.1, last, false);
    PairReadsBack(a.0, a.1, b.0 + "=" + b.1 + "&" + last, false);
  }

  function EscapedUrl(id: string): string {
    "https://" + "gelbooru.com" + "/index.php?page=post&s=view&id=" + (id + "%0A")
  }

  lemma EscapedUrlText(id: string)
    requires IsPostDigits(id)
    ensures EscapedUrl(id) == Printed("gelbooru.com", "/index.php", ThreePairs(("page", "post"), ("s", "view"), ("id", id + "%0A")))
    ensures IsPlainText(ThreePairs(("page", "post"), ("s", "view"), ("id", id + "%0A")))
  {
    PostViewText(id + "%0A");
    PrintedQuery("gelbooru.com", id + "%0A");
  }

  /** The exception is reachable: for any id with an escaped newline after it. */
  lemma NewlineResolves(id: string)
    requires IsPostDigits(id)
    ensures Resolve(EscapedUrl(id)) == Some(GelbooruPost("gelbooru", "gelbooru.com", id + "\n"))
    ensures EndsInNewline(id + "\n")
  {
    DigitsAreText(id);
    EscapedUrlText(id);
    EscapedResolves("gelbooru.com", "/index.php", ("page", "post"), ("s", "view"), "id", id);
    EscapedParts(id, Segments("/index.php"));
  }

  lemma EscapedResolves(host: string, path: string, a: Pair, b: Pair, name: string, id: string)
    requires IsHostText(host) && IsPlainText(path) && path != "" && path[0] == '/'
    requires IsWord(a.0) && IsWord(a.1) && IsWord(b.0) && IsWord(b.1) && IsWord(name) && IsWord(id)
    requires IsPlainText(ThreePairs(a, b, (name, id + "%0A")))
    ensures Resolve(Printed(host, path, ThreePairs(a, b, (name, id + "%0A")))) ==
            ResolveParts(host, Segments(path), [a, b, (name, id + "\n")])
  {
    ResolvePrinted(host, path, ThreePairs(a, b, (name, id + "%0A")), 'A');
    EscapedQuery(a, b, name, id);
  }

  lemma EscapedParts(id: string, segments: seq<string>)
    requires IsPostDigits(id)
    ensures ResolveParts("gelbooru.com", segments, [("page", "post"), ("s", "view"), ("id", id + "\n")]) ==
            Some(GelbooruPost("gelbooru", "gelbooru.com", id + "\n"))
  {
    LastOfThree(("page", "post"), ("s", "view"), ("id", id + "\n"));
    assert WithoutNewline(id + "\n") == id;
  }
}
