/** Canonicalizing a URL and recognizing posts of the sites the resolver knows. */
module LinkRecognition {

  import opened Basics
  import opened UrlText
  import opened QueryText
  import opened LinkResolution
  import opened LinkRoundTrip

  datatype Reference = Reference(platform: string, nativeId: string, targetUrl: string)

  // ----- canonicalize_url -----

  function DropLast(s: string, c: char): string {
    if s != "" && s[|s| - 1] == c then DropLast(s[..|s| - 1], c) else s
  }

  const TRACKING := {"utm_source", "utm_medium", "utm_campaign", "utm_term", "utm_content"}
  const SHORTENERS := {"t.co", "bit.ly", "tinyurl.com", "ow.ly"}

  predicate IsBooru(host: string) {
    host in DANBOORU_HOSTS || host in E621_HOSTS || host in GELBOORU_HOSTS || host == "sankaku.app" || host == "chan.sankakucomplex.com"
  }

  /** Hosts whose URLs get the platform treatment: https, no fragment, a cleaned query. */
  predicate IsRecognizedHost(host: string) {
    IsBooru(host) || host == "www.pixiv.net" || host == "x.com" || host == "pawchive.pw" || host == "www.pawchive.pw" || host == "baraag.net"
  }

  function Alias(host: string): string {
    if host == "twitter.com" || host == "www.twitter.com" || host == "mobile.twitter.com" || host == "www.x.com" then "x.com"
    else if host == "pixiv.net" then "www.pixiv.net"
    else host
  }

  function HexDigit(n: nat): char
    requires n < 16
  {
    if n < 10 then '0' + n as char else 'A' + (n - 10) as char
  }

  function Escape(n: nat): string
    requires n < 256
  {
    ['%', HexDigit(n / 16), HexDigit(n % 16)]
  }

  /** quote_plus of one character, over its UTF-8 bytes. */
  function QuoteChar(c: char): string {
    var n := c as int;
    if IsAlnum(c) || c == '_' || c == '.' || c == '-' || c == '~' then [c]
    else if c == ' ' then "+"
    else if n < 0x80 then Escape(n)
    else if n < 0x800 then Escape(0xC0 + n / 64) + Escape(0x80 + n % 64)
    else if n < 0x10000 then Escape(0xE0 + n / 4096) + Escape(0x80 + n / 64 % 64) + Escape(0x80 + n % 64)
    else Escape(0xF0 + n / 262144) + Escape(0x80 + n / 4096 % 64) + Escape(0x80 + n / 64 % 64) + Escape(0x80 + n % 64)
  }

  function Quote(s: string): string {
    if s == "" then "" else QuoteChar(s[0]) + Quote(s[1..])
  }

  /** urlencode. */
  function Encode(pairs: seq<Pair>): string {
    if pairs == [] then ""
    else
      var head := Quote(pairs[0].0) + "=" + Quote(pairs[0].1);
      if |pairs| == 1 then head else head + "&" + Encode(pairs[1..])
  }

  function Untracked(pairs: seq<Pair>): seq<Pair> {
    if pairs == [] then []
    else (if Lower(pairs[0].0) in TRACKING then [] else [pairs[0]]) + Untracked(pairs[1..])
  }

  /** urlunsplit with a network location. */
  function Unsplit(parts: Parts): string {
    parts.scheme + "://" + parts.netloc + (if parts.path != "" && parts.path[0] != '/' then "/" else "") + parts.path
    + (if parts.query == "" then "" else "?" + parts.query) + if parts.fragment == "" then "" else "#" + parts.fragment
  }

  /** The decimal port of a network location; an empty one is none. */
  function PortText(netloc: string): string { Partition(AfterLast(netloc, '@'), ':').after }

  predicate IsPort(s: string) { forall c | c in s :: IsDigit(c) }

  function Decimal(s: string): nat
    requires IsPort(s)
  {
    if s == "" then 0
    else
      assert s[|s| - 1] in s && forall c | c in s[..|s| - 1] :: c in s;
      Decimal(s[..|s| - 1]) * 10 + (s[|s| - 1] as int - '0' as int)
  }

  function DropSlashes(path: string): string { if path == "/" then path else DropLast(path, '/') }

  /** The host with an explicit port, unless it is the scheme's own. */
  function HostAndPort(scheme: string, netloc: string): string
    requires IsPort(PortText(netloc))
  {
    var host, port := DropLast(HostName(netloc), '.'), PortText(netloc);
    if port == "" || (scheme == "http" && Decimal(port) == 80) || (scheme == "https" && Decimal(port) == 443) then host
    else host + ":" + DecimalText(Decimal(port))
  }

  function DecimalText(n: nat): string {
    if n < 10 then ['0' + n as char] else DecimalText(n / 10) + ['0' + (n % 10) as char]
  }

  /** canonicalize_url of a split URL; None stands for an invalid URL or one
      that needs a redirect first. */
  function CanonicalParts(p: Parts): Option<string> {
    var port := PortText(p.netloc);
    if !IsPort(port) || Decimal(port) > 65535 then None
    else if !(p.scheme == "http" || p.scheme == "https") || HostName(p.netloc) == "" then None
    else if DropLast(HostName(p.netloc), '.') in SHORTENERS then None
    else
      var host := Alias(HostAndPort(p.scheme, p.netloc));
      var path := if p.path == "" then "/" else p.path;
      if IsRecognizedHost(host)
      then Some(Unsplit(Parts("https", host, DropSlashes(path), Encode(Untracked(ParseQuery(p.query, true))), "")))
      else Some(Unsplit(Parts(p.scheme, host, path, p.query, p.fragment)))
  }

  function Canonicalize(text: string): Option<string> {
    var split := UrlSplit(text);
    if split.None? then None else CanonicalParts(split.value)
  }

  // ----- recognize_url, as far as posts go -----

  predicate IsNumber(s: string) { s != "" && forall c | c in s :: IsDigit(c) }

  /** An optional [a-z]{2}/ , or also [a-z]{2}-[a-z]{2}/ , after the first slash. */
  function AfterLocale(path: string, region: bool): string {
    if |path| >= 4 && path[0] == '/' && path[3] == '/' && IsLower(path[1]) && IsLower(path[2]) then path[3..]
    else if region && |path| >= 7 && path[0] == '/' && path[6] == '/' && IsLocale(path[1..6]) then path[6..]
    else path
  }

  function After(prefix: string, s: string): Option<string> {
    if prefix <= s then Some(s[|prefix|..]) else None
  }

  function BooruPlatform(host: string): string
    requires IsBooru(host)
  {
    if host in DANBOORU_HOSTS then DANBOORU_HOSTS[host]
    else if host in E621_HOSTS then E621_HOSTS[host]
    else if host in GELBOORU_HOSTS then GELBOORU_HOSTS[host]
    else "sankaku"
  }

  function GelbooruTarget(platform: string, id: string): string {
    "https://" + (if platform == "gelbooru" then "gelbooru.com" else if platform == "safebooru" then "safebooru.org" else "rule34.xxx")
    + "/index.php?page=post&s=view&id=" + id
  }

  function RecognizeBooru(host: string, path: string, query: string): Option<Reference>
    requires IsBooru(host)
  {
    var platform := BooruPlatform(host);
    if host in GELBOORU_HOSTS then
      var pairs := ParseQuery(query, true);
      var id := LastValue(pairs, "id");
      if LastValue(pairs, "page") == "post" && LastValue(pairs, "s") == "view" && IsNumber(id)
      then Some(Reference(platform, id, GelbooruTarget(platform, id))) else None
    else RecognizePostPath(platform, host, path)
  }

  function PostReference(platform: string, host: string, id: string): Reference {
    Reference(platform, id, "https://" + host + "/posts/" + id)
  }

  function RecognizePostPath(platform: string, host: string, path: string): Option<Reference> {
    var rest := AfterLocale(path, true);
    var posts, legacy := After("/posts/", rest), After("/post/show/", rest);
    if posts.Some? && IsNumber(posts.value) then Some(PostReference(platform, host, posts.value))
    else if legacy.Some? && IsNumber(legacy.value) then Some(PostReference(platform, host, legacy.value))
    else if platform == "sankaku" && posts.Some? && IsSankakuWord(posts.value) then Some(PostReference(platform, "sankaku.app", posts.value))
    else None
  }

  function RecognizePixiv(path: string): Option<Reference> {
    var id := After("/artworks/", AfterLocale(path, false));
    if id.Some? && IsNumber(id.value) then Some(Reference("pixiv", id.value, "https://www.pixiv.net/artworks/" + id.value)) else None
  }

  function RecognizeCanonical(canonical: string): Option<Reference> {
    var split := UrlSplit(canonical);
    if split.None? then None
    else
      var host, p := HostName(split.value.netloc), DropLast(split.value.path, '/');
      var path := if p == "" then "/" else p;
      if host == "www.pixiv.net" then RecognizePixiv(path)
      else if IsBooru(host) then RecognizeBooru(host, path, split.value.query)
      else None
  }

  /** The post a URL is recognized as. */
  function Recognize(url: string): Option<Reference> {
    var canonical := Canonicalize(Strip(url));
    if canonical.None? then None else RecognizeCanonical(canonical.value)
  }

  // ----- canonical URLs are left alone and recognized -----

  /** A host of one of the resolver's canonical URLs. */
  predicate IsHome(host: string) {
    && IsHostText(host) && host[|host| - 1] != '.' && Alias(host) == host && host !in SHORTENERS && IsRecognizedHost(host)
  }

  lemma CanonicalKept(host: string, path: string, query: string, pairs: seq<Pair>)
    requires IsHome(host) && IsPlainText(path) && IsPlainText(query) && |path| >= 2 && path[0] == '/' && path[|path| - 1] != '/'
    requires ParseQuery(query, true) == pairs && Untracked(pairs) == pairs && Encode(pairs) == query
    ensures Canonicalize(Printed(host, path, query)) == Some(Printed(host, path, query))
  {
    PrintedSplits(host, path, query);
    PartsKept(host, path, query, pairs);
  }

  lemma PartsKept(host: string, path: string, query: string, pairs: seq<Pair>)
    requires IsHome(host) && |path| >= 2 && path[0] == '/' && path[|path| - 1] != '/'
    requires ParseQuery(query, true) == pairs && Untracked(pairs) == pairs && Encode(pairs) == query
    ensures CanonicalParts(Parts("https", host, path, query, "")) == Some(Printed(host, path, query))
  {
    HostTextReadsBack(host);
    PortFree(host);
    UnsplitPrinted(host, path, query);
  }

  lemma UnsplitPrinted(host: string, path: string, query: string)
    requires path != "" && path[0] == '/'
    ensures Unsplit(Parts("https", host, path, query, "")) == Printed(host, path, query)
  {
    assert "https" + "://" == "https://";
  }

  lemma PortFree(host: string)
    requires IsHostText(host) && host[|host| - 1] != '.'
    ensures PortText(host) == "" && DropLast(host, '.') == host
  {
    assert '@' !in host && ':' !in host;
    AfterLastNone(host, '@');
    PartitionNone(host, ':');
  }

  lemma RecognizePrinted(host: string, path: string, query: string)
    requires IsHostText(host) && IsPlainText(path) && IsPlainText(query) && path != "" && path[0] == '/' && path[|path| - 1] != '/'
    ensures RecognizeCanonical(Printed(host, path, query)) ==
            if host == "www.pixiv.net" then RecognizePixiv(path) else if IsBooru(host) then RecognizeBooru(host, path, query) else None
  {
    PrintedSplits(host, path, query);
    HostTextReadsBack(host);
  }

  lemma NoQuery()
    ensures ParseQuery("", true) == [] && Untracked([]) == [] && Encode([]) == ""
  {
    assert SplitAll("", '&') == [""] + [];
    assert Fields([""], true) == Field("", true) + Fields([""][1..], true);
  }

  /** A two-segment canonical URL, with or without a newline after it. */
  lemma RecognizeTwo(host: string, a: string, b: string)
    requires IsHome(host) && IsSegment(a) && IsSegment(b) && !IsSpace(b[|b| - 1])
    ensures var r := if host == "www.pixiv.net" then RecognizePixiv("/" + a + "/" + b)
                     else if IsBooru(host) then RecognizeBooru(host, "/" + a + "/" + b, "") else None;
      Recognize(TwoPart(host, a, b)) == r && Recognize(TwoPart(host, a, b) + "\n") == r
  {
    var path := "/" + a + "/" + b;
    var s := Printed(host, path, "");
    assert TwoPart(host, a, b) == s && s[0] == 'h' && s[|s| - 1] == b[|b| - 1] && path[|path| - 1] == b[|b| - 1];
    assert b[|b| - 1] in b;
    StripKeeps(s);
    NoQuery();
    CanonicalKept(host, path, "", []);
    RecognizePrinted(host, path, "");
  }

  lemma PathHomes(host: string)
    requires host in DANBOORU_HOSTS || host in E621_HOSTS
    ensures IsHome(host) && IsBooru(host) && host != "www.pixiv.net"
  {
    if host in DANBOORU_HOSTS { DanbooruHomes(host); } else { E621Homes(host); }
  }

  lemma DanbooruHomes(host: string)
    requires host in DANBOORU_HOSTS
    ensures IsHome(host) && host != "www.pixiv.net"
  {
  }

  lemma E621Homes(host: string)
    requires host in E621_HOSTS
    ensures IsHome(host) && host != "www.pixiv.net"
  {
  }

  lemma PostPathRecognized(id: string)
    requires IsSegment(id)
    ensures AfterLocale("/" + "posts" + "/" + id, true) == "/" + "posts" + "/" + id
    ensures After("/posts/", "/" + "posts" + "/" + id) == Some(id)
  {
    var path := "/" + "posts" + "/" + id;
    assert path[3] == 's';
    assert !IsLocale(path[1..6]) by { assert path[1..6][2] == 's'; }
    assert "/posts/" == "/" + "posts" + "/";
  }

  lemma PathHostRecognizes(l: ResolvedLink, host: string)
    requires PathPost(l, host)
    ensures IsBooru(host)
    ensures RecognizeBooru(host, "/" + "posts" + "/" + l.target, "") == Some(Reference(l.platform, l.target, l.canonicalUrl))
  {
    PathHosts(host);
    DigitsAreText(l.target);
    PostPathRecognized(l.target);
  }

  lemma PathPostRecognized(l: ResolvedLink, host: string)
    requires PathPost(l, host)
    ensures Recognize(l.canonicalUrl) == Some(Reference(l.platform, l.target, l.canonicalUrl))
  {
    PathHomes(host);
    PathHosts(host);
    DigitsAreText(l.target);
    PostsUrl(host, l.target);
    RecognizeTwo(host, "posts", l.target);
    PathHostRecognizes(l, host);
  }

  lemma SankakuRecognized(l: ResolvedLink)
    requires IsSankaku(l)
    ensures Recognize(l.canonicalUrl) == Some(Reference(l.platform, l.target, l.canonicalUrl))
  {
    WordIsText(l.target);
    PostsUrl("sankaku.app", l.target);
    SankakuHome();
    RecognizeTwo("sankaku.app", "posts", l.target);
    SankakuPathRecognized(l.target);
  }

  lemma SankakuHome()
    ensures IsHome("sankaku.app") && IsBooru("sankaku.app") && BooruPlatform("sankaku.app") == "sankaku"
    ensures "sankaku.app" !in GELBOORU_HOSTS && "sankaku.app" != "www.pixiv.net"
  {
  }

  lemma SankakuPathRecognized(id: string)
    requires IsSankakuWord(id)
    ensures IsBooru("sankaku.app")
    ensures RecognizeBooru("sankaku.app", "/" + "posts" + "/" + id, "") ==
            Some(Reference("sankaku", id, PostOnHost("sankaku", "sankaku.app", id).canonicalUrl))
  {
    SankakuHome();
    SankakuPostPath(id);
  }

  lemma SankakuPostPath(id: string)
    requires IsSankakuWord(id)
    ensures RecognizePostPath("sankaku", "sankaku.app", "/" + "posts" + "/" + id) == Some(PostReference("sankaku", "sankaku.app", id))
  {
    WordIsText(id);
    PostPathRecognized(id);
    assert forall c | c in id && IsDigit(c) :: IsAlnum(c);
    if !IsNumber(id) { NotLegacy(id); }
  }

  lemma NotLegacy(id: string)
    ensures After("/post/show/", "/" + "posts" + "/" + id) == None
  {
    assert ("/" + "posts" + "/" + id)[5] == 's' && "/post/show/"[5] == '/';
  }

  lemma PixivRecognized(l: ResolvedLink)
    requires IsPixiv(l) && !EndsInNewline(l.target)
    ensures Recognize(l.canonicalUrl) == Some(Reference(l.platform, l.target, l.canonicalUrl))
    ensures Recognize(l.canonicalUrl + "\n") == Some(Reference(l.platform, l.target, l.canonicalUrl))
  {
    DigitsAreText(l.target);
    PixivUrl(l.target);
    RecognizeTwo("www.pixiv.net", "artworks", l.target);
    PixivPathRecognized(l.target);
  }

  lemma PixivPathRecognized(id: string)
    requires IsPostDigits(id)
    ensures RecognizePixiv("/" + "artworks" + "/" + id) == Some(Reference("pixiv", id, PixivPost(id).canonicalUrl))
  {
    var path := "/" + "artworks" + "/" + id;
    assert path[3] == 't';
    assert "/artworks/" == "/" + "artworks" + "/";
    assert "/artworks/" <= path && path[|"/artworks/"|..] == id;
  }

  lemma {:induction false} QuoteWord(s: string)
    requires forall c | c in s :: IsAlnum(c)
    ensures Quote(s) == s
  {
    if s != "" {
      assert s[0] in s && forall c | c in s[1..] :: c in s;
      QuoteWord(s[1..]);
      assert s == [s[0]] + s[1..];
    }
  }

  lemma EncodeThree(a: Pair, b: Pair, c: Pair)
    requires IsWord(a.0) && IsWord(a.1) && IsWord(b.0) && IsWord(b.1) && IsWord(c.0) && IsWord(c.1)
    ensures Encode([a, b, c]) == ThreePairs(a, b, c)
  {
    QuoteWord(a.0); QuoteWord(a.1); QuoteWord(b.0); QuoteWord(b.1); QuoteWord(c.0); QuoteWord(c.1);
    assert [a, b, c][1..] == [b, c] && [b, c][1..] == [c];
    assert Encode([c]) == c.0 + "=" + c.1;
    assert Encode([b, c]) == b.0 + "=" + b.1 + "&" + Encode([c]);
  }

  lemma UntrackedThree(a: Pair, b: Pair, c: Pair)
    requires Lower(a.0) !in TRACKING && Lower(b.0) !in TRACKING && Lower(c.0) !in TRACKING
    ensures Untracked([a, b, c]) == [a, b, c]
  {
    assert [a, b, c][1..] == [b, c] && [b, c][1..] == [c] && [c][1..] == [];
    assert Untracked([c]) == [c] + Untracked([]);
    assert Untracked([b, c]) == [b] + Untracked([c]);
  }

  lemma PostViewKept(id: string)
    requires IsWord(id)
    ensures var pairs := [("page", "post"), ("s", "view"), ("id", id)];
      ParseQuery("page=post&s=view&id=" + id, true) == pairs && Untracked(pairs) == pairs && Encode(pairs) == "page=post&s=view&id=" + id
  {
    PostViewQuery(id, true);
    PostViewText(id);
    EncodeThree(("page", "post"), ("s", "view"), ("id", id));
    Untracking();
    UntrackedThree(("page", "post"), ("s", "view"), ("id", id));
  }

  lemma Untracking()
    ensures Lower("page") !in TRACKING && Lower("s") !in TRACKING && Lower("id") !in TRACKING
  {
  }

  lemma QueryHomes(host: string)
    requires host in GELBOORU_HOSTS
    ensures var c := CanonicalGelbooruHost(host); IsHome(c) && IsBooru(c) && c != "www.pixiv.net" && BooruPlatform(c) == GELBOORU_HOSTS[host]
  {
  }

  lemma QueryRecognized(host: string, id: string)
    requires host in GELBOORU_HOSTS && IsPostDigits(id)
    ensures IsBooru(CanonicalGelbooruHost(host))
    ensures RecognizeBooru(CanonicalGelbooruHost(host), "/index.php", "page=post&s=view&id=" + id) ==
            Some(Reference(GELBOORU_HOSTS[host], id, GelbooruTarget(GELBOORU_HOSTS[host], id)))
  {
    QueryHosts(host);
    QueryHomes(host);
    DigitsAreText(id);
    PostViewQuery(id, true);
    LastOfThree(("page", "post"), ("s", "view"), ("id", id));
  }

  lemma GelbooruTargets(host: string, id: string)
    requires host in GELBOORU_HOSTS
    ensures GelbooruTarget(GELBOORU_HOSTS[host], id) == GelbooruPost(GELBOORU_HOSTS[host], CanonicalGelbooruHost(host), id).canonicalUrl
  {
  }

  lemma QueryPrinted(l: ResolvedLink, host: string)
    requires QueryPost(l, host) && !EndsInNewline(l.target)
    ensures l.canonicalUrl == Printed(CanonicalGelbooruHost(host), "/index.php", "page=post&s=view&id=" + l.target)
    ensures l == GelbooruPost(GELBOORU_HOSTS[host], CanonicalGelbooruHost(host), l.target)
  {
    DigitsAreText(l.target);
    PrintedQuery(CanonicalGelbooruHost(host), l.target);
  }

  lemma ViewRecognized(host: string, id: string)
    requires host in GELBOORU_HOSTS && IsPostDigits(id)
    ensures var url := Printed(CanonicalGelbooruHost(host), "/index.php", "page=post&s=view&id=" + id);
      var r := Some(Reference(GELBOORU_HOSTS[host], id, GelbooruTarget(GELBOORU_HOSTS[host], id)));
      Recognize(url) == r && Recognize(url + "\n") == r
  {
    DigitsAreText(id);
    QueryHomes(host);
    PrintedQuery(CanonicalGelbooruHost(host), id);
    PostViewKept(id);
    QueryRecognized(host, id);
    RecognizeQuery(CanonicalGelbooruHost(host), "/index.php", "page=post&s=view&id=" + id,
                   [("page", "post"), ("s", "view"), ("id", id)], id[|id| - 1]);
  }

  lemma QueryPostRecognized(l: ResolvedLink, host: string)
    requires QueryPost(l, host) && !EndsInNewline(l.target)
    ensures Recognize(l.canonicalUrl) == Some(Reference(l.platform, l.target, l.canonicalUrl))
    ensures Recognize(l.canonicalUrl + "\n") == Some(Reference(l.platform, l.target, l.canonicalUrl))
  {
    DigitsAreText(l.target);
    QueryPrinted(l, host);
    GelbooruTargets(host, l.target);
    ViewRecognized(host, l.target);
  }

  lemma RecognizeQuery(host: string, path: string, query: string, pairs: seq<Pair>, last: char)
    requires IsHome(host) && IsBooru(host) && host != "www.pixiv.net"
    requires IsPlainText(path) && IsPlainText(query) && |path| >= 2 && path[0] == '/' && path[|path| - 1] != '/'
    requires ParseQuery(query, true) == pairs && Untracked(pairs) == pairs && Encode(pairs) == query
    requires Printed(host, path, query)[|Printed(host, path, query)| - 1] == last && !IsSpace(last)
    ensures Recognize(Printed(host, path, query)) == RecognizeBooru(host, path, query)
    ensures Recognize(Printed(host, path, query) + "\n") == RecognizeBooru(host, path, query)
  {
    var s := Printed(host, path, query);
    assert s[0] == 'h';
    StripKeeps(s);
    CanonicalKept(host, path, query, pairs);
    RecognizePrinted(host, path, query);
  }

  lemma NewlineMisread(l: ResolvedLink)
    requires IsCanonical(l) && EndsInNewline(l.target)
    ensures Recognize(l.canonicalUrl).Some? && Recognize(l.canonicalUrl).value.nativeId != l.target
  {
    var id := WithoutNewline(l.target);
    if host :| QueryPost(l, host) {
      DigitsAreText(id);
      QueryPostRecognized(GelbooruPost(l.platform, CanonicalGelbooruHost(host), id), host);
      NewlineLast("https://" + CanonicalGelbooruHost(host) + "/index.php?page=post&s=view&id=", l.target);
    } else if IsPixiv(l) {
      DigitsAreText(id);
      PixivRecognized(PixivPost(id));
      NewlineLast("https://www.pixiv.net/artworks/", l.target);
    } else {
      OthersEndInText(l);
    }
  }

  /** Recognizing the canonical URL of a resolved danbooru, e621, gelbooru, pixiv
      or sankaku link gives a post with the same platform, id and URL, exactly
      when the target ends in no newline. */
  lemma RecognitionAgrees(url: string)
    requires Resolve(url).Some? && Resolve(url).value.platform != "pawchive"
    ensures var l := Resolve(url).value;
      Recognize(l.canonicalUrl) == Some(Reference(l.platform, l.target, l.canonicalUrl)) <==> !EndsInNewline(l.target)
  {
    ResolvedIsCanonical(url);
    var l := Resolve(url).value;
    if EndsInNewline(l.target) {
      NewlineMisread(l);
    } else if host :| PathPost(l, host) {
      PathPostRecognized(l, host);
    } else if host :| QueryPost(l, host) {
      QueryPostRecognized(l, host);
    } else if IsPixiv(l) {
      PixivRecognized(l);
    } else {
      SankakuRecognized(l);
    }
  }
}
