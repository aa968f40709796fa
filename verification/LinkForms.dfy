/** Which URLs resolve to which post, written out host by host: printed from a
    host, path segments and query pairs, a URL resolves exactly to what its host,
    its segments and its last query values say. */
module LinkForms {

  import opened Basics
  import opened UrlText
  import opened QueryText
  import opened LinkResolution
  import opened LinkRoundTrip

  // ----- printed URLs -----

  /** Text that needs no escape in a query. */
  predicate IsToken(s: string) { s != "" && forall c | c in s :: IsAlnum(c) || c == '_' || c == '-' || c == '.' }

  function PathOf(segments: seq<string>): string {
    if segments == [] then "" else "/" + segments[0] + PathOf(segments[1..])
  }

  function QueryOf(pairs: seq<Pair>): string {
    if pairs == [] then ""
    else if |pairs| == 1 then pairs[0].0 + "=" + pairs[0].1
    else pairs[0].0 + "=" + pairs[0].1 + "&" + QueryOf(pairs[1..])
  }

  function Url(host: string, segments: seq<string>, pairs: seq<Pair>): string { Printed(host, PathOf(segments), QueryOf(pairs)) }

  predicate Tokens(pairs: seq<Pair>) { forall p | p in pairs :: IsToken(p.0) && IsToken(p.1) }

  /** Segments and pairs that can be printed; the URL ends in no space. */
  predicate Printable(segments: seq<string>, pairs: seq<Pair>) {
    && segments != [] && (forall s | s in segments :: IsSegment(s)) && Tokens(pairs)
    && var last := segments[|segments| - 1]; last != "" && (pairs == [] ==> !IsSpace(last[|last| - 1]))
  }

  lemma {:induction false} PathReadsBack(segments: seq<string>)
    requires forall s | s in segments :: IsSegment(s)
    ensures Segments(PathOf(segments)) == segments && IsPlainText(PathOf(segments))
    ensures segments != [] ==> PathOf(segments) != "" && PathOf(segments)[0] == '/'
  {
    if segments == [] {
      EmptyReads();
    } else {
      var a, rest := segments[0], PathOf(segments[1..]);
      assert a in segments && forall s | s in segments[1..] :: s in segments;
      PathReadsBack(segments[1..]);
      SegmentsStep(a, rest);
      assert segments == [a] + segments[1..];
      PlainJoin("/" + a, rest);
    }
  }

  lemma TokenText(s: string)
    requires IsToken(s)
    ensures IsPlainText(s) && Unquote(s) == s && '&' !in s && '=' !in s
  {
    UnquotePlain(s);
  }

  lemma TokenEnds(s: string)
    requires IsToken(s)
    ensures s != "" && !IsSpace(s[|s| - 1])
  {
    assert s[|s| - 1] in s;
  }

  /** Text that ends in no space and takes no part of the query with it. */
  predicate IsFieldText(s: string) { '&' !in s && IsPlainText(s) && s != "" && !IsSpace(s[|s| - 1]) }

  lemma JoinedField(name: string, value: string)
    requires '&' !in name && '&' !in value && IsPlainText(name) && IsPlainText(value) && value != "" && !IsSpace(value[|value| - 1])
    ensures IsFieldText(name + "=" + value)
  {
    hide IsSpace;
    var text := name + "=" + value;
    forall c | c in text ensures c != '&' && c != '?' && c != '#' && !IsUnsafe(c) { assert c in name || c in value || c == '='; }
    assert text[|text| - 1] == value[|value| - 1];
  }

  lemma TokenField(name: string, value: string, keepBlank: bool)
    requires IsToken(name) && IsToken(value)
    ensures Field(name + "=" + value, keepBlank) == [(name, value)] && IsFieldText(name + "=" + value)
  {
    hide IsToken, IsSpace, IsPlainText;
    TokenText(name);
    TokenText(value);
    TokenEnds(value);
    PartitionAt(name, '=', value);
    JoinedField(name, value);
  }

  lemma LastField(text: string, pair: Pair, keepBlank: bool)
    requires Field(text, keepBlank) == [pair] && '&' !in text
    ensures ParseQuery(text, keepBlank) == [pair]
  {
    PartitionNone(text, '&');
    assert SplitAll(text, '&') == [text] && [text][1..] == [];
    assert Fields([text], keepBlank) == Field(text, keepBlank) + Fields([], keepBlank);
  }

  lemma NoFields(keepBlank: bool)
    ensures ParseQuery("", keepBlank) == []
  {
    assert SplitAll("", '&') == [""];
    assert Fields([""], keepBlank) == Field("", keepBlank) + Fields([""][1..], keepBlank);
  }

  lemma {:induction false} QueryReadsBack(pairs: seq<Pair>, keepBlank: bool)
    requires Tokens(pairs)
    ensures ParseQuery(QueryOf(pairs), keepBlank) == pairs && IsPlainText(QueryOf(pairs))
    ensures pairs != [] ==> QueryOf(pairs) != "" && !IsSpace(QueryOf(pairs)[|QueryOf(pairs)| - 1])
    decreases |pairs|
  {
    hide IsSpace, IsToken, Field, IsPlainText, ParseQuery;
    if pairs == [] {
      NoFields(keepBlank);
      EmptyIsPlain();
    } else {
      var text := pairs[0].0 + "=" + pairs[0].1;
      assert pairs[0] in pairs;
      TokenField(pairs[0].0, pairs[0].1, keepBlank);
      if |pairs| == 1 {
        LastField(text, pairs[0], keepBlank);
        assert pairs == [pairs[0]];
      } else {
        assert forall p | p in pairs[1..] :: p in pairs;
        QueryReadsBack(pairs[1..], keepBlank);
        MoreFields(text, pairs[0], QueryOf(pairs[1..]), pairs[1..], keepBlank);
        assert pairs == [pairs[0]] + pairs[1..];
      }
    }
  }

  lemma EmptyIsPlain()
    ensures IsPlainText("")
  {
  }

  lemma MoreFields(text: string, first: Pair, rest: string, others: seq<Pair>, keepBlank: bool)
    requires Field(text, keepBlank) == [first] && IsFieldText(text)
    requires ParseQuery(rest, keepBlank) == others && IsPlainText(rest) && rest != "" && !IsSpace(rest[|rest| - 1])
    ensures var more := text + "&" + rest;
      ParseQuery(more, keepBlank) == [first] + others && IsPlainText(more) && more != "" && !IsSpace(more[|more| - 1])
  {
    SplitFirst(text, '&', rest);
    assert text + "&" + rest == text + ['&'] + rest;
    assert ([text] + SplitAll(rest, '&'))[1..] == SplitAll(rest, '&');
    PlainJoin(text + "&", rest);
  }

  /** A printed URL resolves by its host, its segments and its pairs. */
  lemma UrlResolves(host: string, segments: seq<string>, pairs: seq<Pair>)
    requires IsHostText(host) && Printable(segments, pairs)
    ensures Resolve(Url(host, segments, pairs)) == ResolveParts(host, segments, pairs)
  {
    hide ResolveParts, Resolve, IsToken, IsSpace, IsPlainText, ParseQuery, Segments, IsHostText;
    var url := Url(host, segments, pairs);
    PathReadsBack(segments);
    QueryReadsBack(pairs, false);
    UrlEnds(host, segments, pairs);
    ResolvePrinted(host, PathOf(segments), QueryOf(pairs), url[|url| - 1]);
  }

  lemma UrlEnds(host: string, segments: seq<string>, pairs: seq<Pair>)
    requires Printable(segments, pairs)
    ensures var url := Url(host, segments, pairs); url != "" && !IsSpace(url[|url| - 1])
  {
    hide IsToken, IsPlainText;
    PathEnds(segments);
    QueryReadsBack(pairs, false);
  }

  lemma {:induction false} PathEnds(segments: seq<string>)
    requires segments != [] && segments[|segments| - 1] != ""
    ensures var path, last := PathOf(segments), segments[|segments| - 1]; path != "" && path[|path| - 1] == last[|last| - 1]
  {
    if |segments| > 1 { PathEnds(segments[1..]); }
  }

  // ----- what each host's URLs mean -----

  /** A post number: digits without a leading zero. */
  predicate IsId(s: string) { s != "" && '1' <= s[0] <= '9' && forall c | c in s :: '0' <= c <= '9' }

  predicate PathHost(host: string, platform: string) {
    || (host == "danbooru.donmai.us" && platform == "danbooru")
    || (host == "aibooru.online" && platform == "aibooru") || (host == "www.aibooru.online" && platform == "aibooru")
    || (host == "e621.net" && platform == "e621") || (host == "e926.net" && platform == "e926")
  }

  /** The platform of a host whose posts are named by the query, and the host
      its posts are written with. */
  predicate QueryHost(host: string, platform: string, home: string) {
    || (host == "gelbooru.com" && platform == "gelbooru" && home == "gelbooru.com")
    || (host == "safebooru.org" && platform == "safebooru" && home == "safebooru.org")
    || (host in {"rule34.xxx", "www.rule34.xxx", "api.rule34.xxx"} && platform == "rule34" && home == "rule34.xxx")
  }

  predicate TwoLetters(s: string) { |s| == 2 && 'a' <= s[0] <= 'z' && 'a' <= s[1] <= 'z' }

  /** A path segment that only chooses the language of the page. */
  predicate IsLanguage(host: string, s: string) {
    || (host in {"danbooru.donmai.us", "aibooru.online", "www.aibooru.online"} && s in {"en", "ja"})
    || (host in {"e621.net", "e926.net", "www.pixiv.net", "pixiv.net"} && s == "en")
    || (host in {"sankaku.app", "chan.sankakucomplex.com"}
        && (TwoLetters(s) || (|s| == 5 && TwoLetters(s[..2]) && s[2] == '-' && TwoLetters(s[3..]))))
  }

  /** The path without these. */
  function Spoken(host: string, segments: seq<string>): seq<string> {
    if segments == [] then []
    else if IsLanguage(host, segments[0]) then Spoken(host, segments[1..])
    else [segments[0]] + Spoken(host, segments[1..])
  }

  /** The last value of this key. */
  predicate LastIs(pairs: seq<Pair>, key: string, value: string) {
    exists k :: 0 <= k < |pairs| && pairs[k] == (key, value) && forall j | k < j < |pairs| :: pairs[j].0 != key
  }

  predicate PostPathOf(path: seq<string>, id: string) {
    || path == ["posts", id] || path == ["posts", id + ".json"]
    || path == ["post", "show", id] || path == ["post", "show", id + ".json"]
  }

  predicate MeansPost(host: string, path: seq<string>, l: ResolvedLink) {
    && PathHost(host, l.platform) && IsId(l.target) && PostPathOf(path, l.target)
    && l.canonicalUrl == "https://" + host + "/posts/" + l.target
  }

  ghost predicate MeansQuery(host: string, pairs: seq<Pair>, l: ResolvedLink) {
    exists home ::
      && QueryHost(host, l.platform, home) && IsId(l.target)
      && LastIs(pairs, "page", "post") && LastIs(pairs, "s", "view") && LastIs(pairs, "id", l.target)
      && l.canonicalUrl == "https://" + home + "/index.php?page=post&s=view&id=" + l.target
  }

  predicate MeansPixiv(host: string, path: seq<string>, pairs: seq<Pair>, l: ResolvedLink) {
    && (host == "www.pixiv.net" || host == "pixiv.net") && l.platform == "pixiv" && IsId(l.target)
    && (path == ["artworks", l.target] || (path == ["member_illust.php"] && LastIs(pairs, "illust_id", l.target)))
    && l.canonicalUrl == "https://www.pixiv.net/artworks/" + l.target
  }

  predicate MeansSankaku(host: string, path: seq<string>, l: ResolvedLink) {
    && (host == "sankaku.app" || host == "chan.sankakucomplex.com") && l.platform == "sankaku"
    && 4 <= |l.target| <= 32 && (forall c | c in l.target :: '0' <= c <= '9' || 'a' <= c <= 'z' || 'A' <= c <= 'Z')
    && (path == ["posts", l.target] || path == ["posts", l.target + ".json"])
    && l.canonicalUrl == "https://sankaku.app/posts/" + l.target
  }

  predicate IsService(s: string) {
    s != "" && 'a' <= s[0] <= 'z' && forall c | c in s :: 'a' <= c <= 'z' || '0' <= c <= '9' || c == '_' || c == '-'
  }

  predicate MeansPawchive(host: string, path: seq<string>, l: ResolvedLink) {
    && (host == "www.pawchive.pw" || host == "pawchive.pw") && l.platform == "pawchive"
    && |path| == 5 && IsService(path[0]) && path[1] == "user" && IsId(path[2]) && path[3] == "post" && IsId(path[4])
    && l.target == path[0] + ":" + path[2] + ":" + path[4]
    && l.canonicalUrl == "https://pawchive.pw/" + path[0] + "/user/" + path[2] + "/post/" + path[4]
  }

  ghost predicate Means(host: string, segments: seq<string>, pairs: seq<Pair>, l: ResolvedLink) {
    var path := Spoken(host, segments);
    || MeansPost(host, path, l) || MeansQuery(host, pairs, l) || MeansPixiv(host, path, pairs, l)
    || MeansSankaku(host, path, l) || MeansPawchive(host, path, l)
  }

  // ----- the families read exactly that -----

  predicate NoLineBreaks(parts: seq<string>) { forall s | s in parts :: '\n' !in s }

  lemma IdIsDigits(s: string)
    requires '\n' !in s
    ensures IsId(s) <==> MatchesDigits(s)
  {
    assert WithoutNewline(s) == s;
  }

  lemma SuffixOff(s: string, id: string)
    requires |id| >= 1 && id[|id| - 1] != 'n'
    ensures Suffixless(s) == id <==> s == id || s == id + ".json"
  {
    if s == id + ".json" { assert s[|s| - 5..] == ".json" && s[..|s| - 5] == id; }
    if s == id && |s| >= 5 { assert s[|s| - 5..][4] == s[|s| - 1]; }
    if Suffixless(s) == id && s != id { assert s == s[..|s| - 5] + s[|s| - 5..]; }
  }

  lemma LastIsStep(pairs: seq<Pair>, key: string, value: string)
    requires pairs != []
    ensures var n := |pairs| - 1;
      LastIs(pairs, key, value) <==> if pairs[n].0 == key then pairs[n].1 == value else LastIs(pairs[..n], key, value)
  {
    var n := |pairs| - 1;
    var front := pairs[..n];
    if pairs[n] == (key, value) { assert LastIs(pairs, key, value); }
    if k :| 0 <= k < |pairs| && pairs[k] == (key, value) && forall j | k < j < |pairs| :: pairs[j].0 != key {
      if k < n { assert front[k] == pairs[k] && forall j | k < j < n :: front[j] == pairs[j]; }
    }
    if pairs[n].0 != key {
      if k :| 0 <= k < n && front[k] == (key, value) && forall j | k < j < n :: front[j].0 != key {
        assert forall j | k < j < n :: pairs[j] == front[j];
        assert pairs[k] == (key, value);
      }
    }
  }

  lemma {:induction false} LastReads(pairs: seq<Pair>, key: string, value: string)
    requires value != ""
    ensures LastIs(pairs, key, value) <==> LastValue(pairs, key) == value
  {
    if pairs != [] {
      hide LastIs;
      LastReads(pairs[..|pairs| - 1], key, value);
      LastIsStep(pairs, key, value);
    }
  }

  lemma {:induction false} SpokenIsWithout(host: string, segments: seq<string>, drop: string -> bool)
    requires forall s :: drop(s) <==> IsLanguage(host, s)
    ensures Spoken(host, segments) == Without(segments, drop)
  {
    hide IsLanguage;
    if segments != [] { SpokenIsWithout(host, segments[1..], drop); }
  }

  lemma {:induction false} SpokenClean(host: string, segments: seq<string>)
    requires NoLineBreaks(segments)
    ensures NoLineBreaks(Spoken(host, segments))
  {
    hide IsLanguage;
    if segments != [] {
      assert segments[0] in segments && forall s | s in segments[1..] :: s in segments;
      SpokenClean(host, segments[1..]);
    }
  }

  lemma IdEnds(id: string)
    requires IsId(id)
    ensures id != "" && id[|id| - 1] != 'n' && '\n' !in id
  {
    assert id[|id| - 1] in id;
  }

  lemma FamilyPosts(platform: string, host: string, path: seq<string>, l: ResolvedLink)
    requires NoLineBreaks(path)
    ensures PostsFamily(platform, host, path) == Some(l) <==>
            IsId(l.target) && PostPathOf(path, l.target) && l == ResolvedLink(platform, l.target, "https://" + host + "/posts/" + l.target)
  {
    hide IsId, Suffixless, MatchesDigits;
    var posts := PostPath(path);
    if IsId(l.target) {
      IdEnds(l.target);
      if |posts| == 2 { SuffixOff(posts[1], l.target); }
    }
    if |posts| == 2 {
      assert posts[1] in path;
      SuffixClean(posts[1]);
      IdIsDigits(Suffixless(posts[1]));
    }
  }

  lemma SuffixClean(s: string)
    requires '\n' !in s
    ensures '\n' !in Suffixless(s)
  {
  }

  lemma DanbooruLanguage(host: string)
    requires host in DANBOORU_HOSTS
    ensures forall s :: IsEnOrJa()(s) <==> IsLanguage(host, s)
    ensures PathHost(host, DANBOORU_HOSTS[host]) && host !in GELBOORU_HOSTS && forall p | PathHost(host, p) :: p == DANBOORU_HOSTS[host]
  {
  }

  lemma E621Language(host: string)
    requires host in E621_HOSTS
    ensures forall s :: IsEn()(s) <==> IsLanguage(host, s)
    ensures PathHost(host, E621_HOSTS[host]) && host !in GELBOORU_HOSTS && host !in DANBOORU_HOSTS
    ensures forall p | PathHost(host, p) :: p == E621_HOSTS[host]
  {
  }

  lemma PostHostMeans(host: string, segments: seq<string>, pairs: seq<Pair>, l: ResolvedLink)
    requires NoLineBreaks(segments) && (host in DANBOORU_HOSTS || host in E621_HOSTS)
    ensures ResolveParts(host, segments, pairs) == Some(l) <==> MeansPost(host, Spoken(host, segments), l)
  {
    hide PathHost, IsLanguage, PostsFamily, PostPathOf, IsId;
    SpokenClean(host, segments);
    if host in DANBOORU_HOSTS {
      DanbooruLanguage(host);
      SpokenIsWithout(host, segments, IsEnOrJa());
      FamilyPosts(DANBOORU_HOSTS[host], host, Spoken(host, segments), l);
    } else {
      E621Language(host);
      SpokenIsWithout(host, segments, IsEn());
      FamilyPosts(E621_HOSTS[host], host, Spoken(host, segments), l);
    }
  }

  lemma PixivLanguage(host: string)
    requires host == "www.pixiv.net" || host == "pixiv.net"
    ensures forall s :: IsEn()(s) <==> IsLanguage(host, s)
    ensures host !in GELBOORU_HOSTS && host !in DANBOORU_HOSTS && host !in E621_HOSTS
  {
  }

  lemma {:induction false} NamedPair(pairs: seq<Pair>, key: string)
    ensures LastValue(pairs, key) != "" ==> HasKey(pairs, key)
  {
    if pairs != [] {
      var n := |pairs| - 1;
      NamedPair(pairs[..n], key);
      if k :| 0 <= k < n && pairs[..n][k].0 == key { assert pairs[k].0 == key; }
      if pairs[n].0 == key { assert HasKey(pairs, key); }
    }
  }

  lemma FamilyPixiv(path: seq<string>, pairs: seq<Pair>, spoken: seq<string>, l: ResolvedLink)
    requires spoken == Without(path, IsEn()) && NoLineBreaks(spoken) && forall p | p in pairs :: '\n' !in p.1
    ensures Pixiv(path, pairs) == Some(l) <==>
            && IsId(l.target) && l == ResolvedLink("pixiv", l.target, "https://www.pixiv.net/artworks/" + l.target)
            && (spoken == ["artworks", l.target] || (spoken == ["member_illust.php"] && LastIs(pairs, "illust_id", l.target)))
  {
    hide IsId, MatchesDigits, Without, LastIs, LastValue, HasKey;
    var id := LastValue(pairs, "illust_id");
    NamedPair(pairs, "illust_id");
    LastClean(pairs, "illust_id");
    IdIsDigits(id);
    if IsId(l.target) { IdEnds(l.target); LastReads(pairs, "illust_id", l.target); }
    if IsId(id) { IdEnds(id); }
    if |spoken| == 2 { assert spoken[1] in spoken; IdIsDigits(spoken[1]); }
  }

  lemma {:induction false} LastClean(pairs: seq<Pair>, key: string)
    requires forall p | p in pairs :: '\n' !in p.1
    ensures '\n' !in LastValue(pairs, key)
  {
    if pairs != [] {
      assert pairs[|pairs| - 1] in pairs;
      LastClean(pairs[..|pairs| - 1], key);
    }
  }

  lemma PixivMeans(host: string, segments: seq<string>, pairs: seq<Pair>, l: ResolvedLink)
    requires NoLineBreaks(segments) && (host == "www.pixiv.net" || host == "pixiv.net") && forall p | p in pairs :: '\n' !in p.1
    ensures ResolveParts(host, segments, pairs) == Some(l) <==> MeansPixiv(host, Spoken(host, segments), pairs, l)
  {
    hide IsLanguage, Pixiv, IsId, LastIs;
    SpokenClean(host, segments);
    PixivLanguage(host);
    SpokenIsWithout(host, segments, IsEn());
    FamilyPixiv(segments, pairs, Spoken(host, segments), l);
  }

  lemma SankakuLanguage(host: string)
    requires host == "sankaku.app" || host == "chan.sankakucomplex.com"
    ensures forall s :: IsAnyLocale()(s) <==> IsLanguage(host, s)
    ensures host !in GELBOORU_HOSTS && host !in DANBOORU_HOSTS && host !in E621_HOSTS && host != "www.pixiv.net" && host != "pixiv.net"
  {
    forall s: string ensures IsLocale(s) <==> IsLanguage(host, s) {
      if |s| == 5 { assert s[..2][0] == s[0] && s[..2][1] == s[1] && s[3..][0] == s[3] && s[3..][1] == s[4]; }
    }
  }

  /** An id of Sankaku's: letters and digits. */
  predicate IsAlphanumericId(s: string) {
    4 <= |s| <= 32 && forall c | c in s :: '0' <= c <= '9' || 'a' <= c <= 'z' || 'A' <= c <= 'Z'
  }

  lemma {:induction false} SuffixOffWord(s: string, id: string)
    requires IsAlphanumericId(id)
    ensures Suffixless(s) == id <==> s == id || s == id + ".json"
  {
    if s == id + ".json" { assert s[|s| - 5..] == ".json" && s[..|s| - 5] == id; }
    if s == id && |s| >= 5 { assert s[|s| - 5..][0] == s[|s| - 5] && s[|s| - 5] in id; }
    if Suffixless(s) == id && s != id { assert s == s[..|s| - 5] + s[|s| - 5..]; }
  }

  lemma WordIsMatched(s: string)
    requires '\n' !in s
    ensures IsAlphanumericId(s) <==> MatchesSankaku(s)
  {
    assert WithoutNewline(s) == s;
  }

  lemma FamilySankaku(path: seq<string>, spoken: seq<string>, l: ResolvedLink)
    requires spoken == Without(path, IsAnyLocale()) && NoLineBreaks(spoken)
    ensures Sankaku(path) == Some(l) <==>
            && IsAlphanumericId(l.target) && l == ResolvedLink("sankaku", l.target, "https://sankaku.app/posts/" + l.target)
            && (spoken == ["posts", l.target] || spoken == ["posts", l.target + ".json"])
  {
    hide IsAlphanumericId, MatchesSankaku, Without, Suffixless;
    assert "https://" + "sankaku.app" + "/posts/" == "https://sankaku.app/posts/";
    if |spoken| == 2 {
      assert spoken[1] in spoken;
      SuffixClean(spoken[1]);
      WordIsMatched(Suffixless(spoken[1]));
      if IsAlphanumericId(l.target) { SuffixOffWord(spoken[1], l.target); }
    }
  }

  lemma SankakuMeans(host: string, segments: seq<string>, pairs: seq<Pair>, l: ResolvedLink)
    requires NoLineBreaks(segments) && (host == "sankaku.app" || host == "chan.sankakucomplex.com")
    ensures ResolveParts(host, segments, pairs) == Some(l) <==> MeansSankaku(host, Spoken(host, segments), l)
  {
    hide IsLanguage, Sankaku;
    SpokenClean(host, segments);
    SankakuLanguage(host);
    SpokenIsWithout(host, segments, IsAnyLocale());
    FamilySankaku(segments, Spoken(host, segments), l);
  }

  lemma PawchiveHost(host: string)
    requires host == "www.pawchive.pw" || host == "pawchive.pw"
    ensures host !in GELBOORU_HOSTS && host !in DANBOORU_HOSTS && host !in E621_HOSTS && host != "www.pixiv.net" && host != "pixiv.net"
    ensures host != "sankaku.app" && host != "chan.sankakucomplex.com" && forall s :: !IsLanguage(host, s)
  {
  }

  lemma {:induction false} NothingSilent(host: string, segments: seq<string>)
    requires forall s :: !IsLanguage(host, s)
    ensures Spoken(host, segments) == segments
  {
    hide IsLanguage;
    if segments != [] { NothingSilent(host, segments[1..]); }
  }

  lemma ServiceIsMatched(s: string)
    requires '\n' !in s
    ensures IsService(s) <==> MatchesService(s)
  {
    assert WithoutNewline(s) == s;
  }

  lemma PawchiveMeans(host: string, segments: seq<string>, pairs: seq<Pair>, l: ResolvedLink)
    requires NoLineBreaks(segments) && (host == "www.pawchive.pw" || host == "pawchive.pw")
    ensures ResolveParts(host, segments, pairs) == Some(l) <==> MeansPawchive(host, Spoken(host, segments), l)
  {
    hide IsLanguage, IsId, IsService, MatchesDigits, MatchesService;
    PawchiveHost(host);
    NothingSilent(host, segments);
    if |segments| == 5 {
      assert segments[0] in segments && segments[2] in segments && segments[4] in segments;
      ServiceIsMatched(segments[0]);
      IdIsDigits(segments[2]);
      IdIsDigits(segments[4]);
    }
  }

  lemma QueryHostIs(host: string)
    requires host in GELBOORU_HOSTS
    ensures forall platform, home :: QueryHost(host, platform, home) <==> platform == GELBOORU_HOSTS[host] && home == CanonicalGelbooruHost(host)
  {
  }

  lemma QueryMeans(host: string, segments: seq<string>, pairs: seq<Pair>, l: ResolvedLink)
    requires host in GELBOORU_HOSTS && forall p | p in pairs :: '\n' !in p.1
    ensures ResolveParts(host, segments, pairs) == Some(l) <==> MeansQuery(host, pairs, l)
  {
    hide QueryHost, LastIs, LastValue, IsId, MatchesDigits, CanonicalGelbooruHost;
    QueryHostIs(host);
    LastReads(pairs, "page", "post");
    LastReads(pairs, "s", "view");
    var id := LastValue(pairs, "id");
    LastClean(pairs, "id");
    IdIsDigits(id);
    if IsId(l.target) { IdEnds(l.target); LastReads(pairs, "id", l.target); }
    if IsId(id) { IdEnds(id); LastReads(pairs, "id", id); }
  }

  // ----- the theorem -----

  /** Only one family reads a host. */
  lemma OneFamily(host: string)
    ensures (exists p :: PathHost(host, p)) <==> host in DANBOORU_HOSTS || host in E621_HOSTS
    ensures (exists p, home :: QueryHost(host, p, home)) <==> host in GELBOORU_HOSTS
    ensures host in DANBOORU_HOSTS || host in E621_HOSTS || host in GELBOORU_HOSTS ==>
              host !in {"www.pixiv.net", "pixiv.net", "sankaku.app", "chan.sankakucomplex.com", "www.pawchive.pw", "pawchive.pw"}
    ensures host in GELBOORU_HOSTS ==> host !in DANBOORU_HOSTS && host !in E621_HOSTS
  {
    if host in DANBOORU_HOSTS { assert PathHost(host, DANBOORU_HOSTS[host]); }
    if host in E621_HOSTS { assert PathHost(host, E621_HOSTS[host]); }
    if host in GELBOORU_HOSTS { assert QueryHost(host, GELBOORU_HOSTS[host], CanonicalGelbooruHost(host)); }
  }

  lemma PartsMean(host: string, segments: seq<string>, pairs: seq<Pair>, l: ResolvedLink)
    requires NoLineBreaks(segments) && forall p | p in pairs :: '\n' !in p.1
    ensures ResolveParts(host, segments, pairs) == Some(l) <==> Means(host, segments, pairs, l)
  {
    hide PathHost, QueryHost, IsLanguage, IsId, LastIs, PostPathOf, IsService, Spoken, Pixiv, Sankaku, Pawchive, PostsFamily, GelbooruFamily;
    OneFamily(host);
    if host in DANBOORU_HOSTS || host in E621_HOSTS {
      PostHostMeans(host, segments, pairs, l);
    } else if host in GELBOORU_HOSTS {
      QueryMeans(host, segments, pairs, l);
    } else if host == "www.pixiv.net" || host == "pixiv.net" {
      PixivMeans(host, segments, pairs, l);
    } else if host == "sankaku.app" || host == "chan.sankakucomplex.com" {
      SankakuMeans(host, segments, pairs, l);
    } else if host == "www.pawchive.pw" || host == "pawchive.pw" {
      PawchiveMeans(host, segments, pairs, l);
    }
  }

  lemma PrintableClean(segments: seq<string>, pairs: seq<Pair>)
    requires Printable(segments, pairs)
    ensures NoLineBreaks(segments) && forall p | p in pairs :: '\n' !in p.1
  {
    forall s | s in segments ensures '\n' !in s { assert IsSegment(s); }
    forall p | p in pairs ensures '\n' !in p.1 { assert IsToken(p.1); }
  }

  /** A printed URL resolves to a link exactly when it means that post. */
  lemma ResolvesExactly(host: string, segments: seq<string>, pairs: seq<Pair>, l: ResolvedLink)
    requires IsHostText(host) && Printable(segments, pairs)
    ensures Resolve(Url(host, segments, pairs)) == Some(l) <==> Means(host, segments, pairs, l)
  {
    hide Resolve, ResolveParts, Means, Printable, IsHostText;
    UrlResolves(host, segments, pairs);
    PrintableClean(segments, pairs);
    PartsMean(host, segments, pairs, l);
  }

  // ----- single forms -----

  lemma IdIsPrintable(id: string)
    requires IsId(id)
    ensures IsSegment(id) && IsSegment(id + ".json") && IsToken(id) && !IsSpace(id[|id| - 1]) && !IsSpace((id + ".json")[|id| + 4])
  {
    assert id[|id| - 1] in id;
    forall c | c in id + ".json" ensures c != '/' && c != '?' && c != '#' && !IsUnsafe(c) { assert c in id || c in ".json"; }
  }

  lemma Words()
    ensures IsSegment("posts") && IsSegment("post") && IsSegment("show")
  {
  }

  lemma PixivWords()
    ensures IsSegment("artworks") && IsSegment("member_illust.php")
  {
  }

  lemma IllustrationWords()
    ensures IsToken("mode") && IsToken("medium") && IsToken("illust_id")
  {
  }

  lemma PathHostText(host: string, platform: string)
    requires PathHost(host, platform)
    ensures IsHostText(host) && !IsLanguage(host, "posts") && !IsLanguage(host, "post") && !IsLanguage(host, "show")
    ensures forall s | IsLanguage(host, s) :: |s| == 2
  {
  }

  lemma SpokenTwo(host: string, a: string, b: string)
    requires !IsLanguage(host, a) && !IsLanguage(host, b)
    ensures Spoken(host, [a, b]) == [a, b]
  {
    hide IsLanguage;
    assert [a, b][1..] == [b] && [b][1..] == [];
    assert Spoken(host, [b]) == [b] + Spoken(host, []);
  }

  lemma SpokenThree(host: string, a: string, b: string, c: string)
    requires !IsLanguage(host, a) && !IsLanguage(host, b) && !IsLanguage(host, c)
    ensures Spoken(host, [a, b, c]) == [a, b, c]
  {
    hide IsLanguage;
    assert [a, b, c][1..] == [b, c];
    SpokenTwo(host, b, c);
  }

  lemma UrlTwo(host: string, a: string, b: string)
    ensures Url(host, [a, b], []) == "https://" + host + ("/" + a + "/" + b)
  {
    assert [a, b][1..] == [b] && [b][1..] == [];
    assert PathOf([b]) == "/" + b + "";
    assert PathOf([a, b]) == "/" + a + "/" + b;
  }

  lemma UrlThree(host: string, a: string, b: string, c: string)
    ensures Url(host, [a, b, c], []) == "https://" + host + ("/" + a + "/" + b + "/" + c)
  {
    assert [a, b, c][1..] == [b, c] && [b, c][1..] == [c] && [c][1..] == [];
    assert PathOf([c]) == "/" + c + "";
    assert PathOf([b, c]) == "/" + b + "/" + c;
    assert PathOf([a, b, c]) == "/" + a + "/" + b + "/" + c;
  }

  lemma PostForm(host: string, platform: string, id: string, last: string)
    requires PathHost(host, platform) && IsId(id) && (last == id || last == id + ".json")
    ensures Resolve("https://" + host + ("/" + "posts" + "/" + last)) == Some(ResolvedLink(platform, id, "https://" + host + "/posts/" + id))
  {
    hide Resolve, IsLanguage, PathHost, IsId, IsSegment, IsToken, IsSpace, Url, IsHostText;
    IdIsPrintable(id);
    Words();
    PathHostText(host, platform);
    IdNoLanguage(host, id);
    SpokenTwo(host, "posts", last);
    UrlTwo(host, "posts", last);
    ResolvesExactly(host, ["posts", last], [], ResolvedLink(platform, id, "https://" + host + "/posts/" + id));
  }

  lemma LegacyForm(host: string, platform: string, id: string)
    requires PathHost(host, platform) && IsId(id)
    ensures Resolve("https://" + host + ("/" + "post" + "/" + "show" + "/" + id)) ==
            Some(ResolvedLink(platform, id, "https://" + host + "/posts/" + id))
  {
    hide Resolve, IsLanguage, PathHost, IsId, IsSegment, IsToken, IsSpace, Url, IsHostText;
    IdIsPrintable(id);
    Words();
    PathHostText(host, platform);
    IdNoLanguage(host, id);
    SpokenThree(host, "post", "show", id);
    UrlThree(host, "post", "show", id);
    ResolvesExactly(host, ["post", "show", id], [], ResolvedLink(platform, id, "https://" + host + "/posts/" + id));
  }

  lemma PostText(host: string, id: string)
    ensures "https://" + host + "/posts/" + id == "https://" + host + ("/" + "posts" + "/" + id)
    ensures "https://" + host + "/post/show/" + id == "https://" + host + ("/" + "post" + "/" + "show" + "/" + id)
  {
    assert "/" + "posts" + "/" == "/posts/";
    assert "/" + "post" + "/" == "/post/" && "/post/" + "show" + "/" == "/post/show/";
    assert "/" + "posts" + "/" + id == "/posts/" + id;
    assert "/" + "post" + "/" + "show" + "/" + id == "/post/show/" + id;
  }

  /** Each danbooru and e621 host reads its own post URL, the one with .json and
      the old one as the same post. */
  lemma PostForms(host: string, platform: string, id: string)
    requires PathHost(host, platform) && IsId(id)
    ensures var l := ResolvedLink(platform, id, "https://" + host + "/posts/" + id);
      && Resolve("https://" + host + "/posts/" + id) == Some(l)
      && Resolve("https://" + host + "/posts/" + (id + ".json")) == Some(l)
      && Resolve("https://" + host + "/post/show/" + id) == Some(l)
  {
    hide Resolve, PathHost, IsId;
    PostForm(host, platform, id, id);
    PostForm(host, platform, id, id + ".json");
    LegacyForm(host, platform, id);
    PostText(host, id);
    PostText(host, id + ".json");
  }

  lemma IdNoLanguage(host: string, id: string)
    requires IsId(id)
    ensures !IsLanguage(host, id) && !IsLanguage(host, id + ".json")
  {
    assert id[0] in id;
  }

  /** pixiv's own and old URLs, on either host. */
  lemma PixivForms(host: string, id: string)
    requires (host == "www.pixiv.net" || host == "pixiv.net") && IsId(id)
    ensures var l := Some(ResolvedLink("pixiv", id, "https://www.pixiv.net/artworks/" + id));
      && Resolve(Url(host, ["artworks", id], [])) == l
      && Resolve(Url(host, ["member_illust.php"], [("mode", "medium"), ("illust_id", id)])) == l
  {
    hide Resolve, IsId, Url;
    PixivArtwork(host, id);
    PixivIllustration(host, id);
  }

  lemma PixivArtwork(host: string, id: string)
    requires (host == "www.pixiv.net" || host == "pixiv.net") && IsId(id)
    ensures Resolve(Url(host, ["artworks", id], [])) == Some(ResolvedLink("pixiv", id, "https://www.pixiv.net/artworks/" + id))
  {
    hide Resolve, IsLanguage, IsId, IsSegment, IsSpace, Url, IsHostText, LastIs;
    IdIsPrintable(id);
    PixivWords();
    IdNoLanguage(host, id);
    PixivHostText(host);
    SpokenTwo(host, "artworks", id);
    ResolvesExactly(host, ["artworks", id], [], ResolvedLink("pixiv", id, "https://www.pixiv.net/artworks/" + id));
  }

  lemma PixivIllustration(host: string, id: string)
    requires (host == "www.pixiv.net" || host == "pixiv.net") && IsId(id)
    ensures Resolve(Url(host, ["member_illust.php"], [("mode", "medium"), ("illust_id", id)])) ==
            Some(ResolvedLink("pixiv", id, "https://www.pixiv.net/artworks/" + id))
  {
    hide Resolve, IsLanguage, IsId, IsSegment, IsToken, IsSpace, Url, IsHostText;
    var pairs := [("mode", "medium"), ("illust_id", id)];
    IdIsPrintable(id);
    PixivWords();
    IllustrationWords();
    PixivHostText(host);
    assert Spoken(host, ["member_illust.php"]) == ["member_illust.php"] + Spoken(host, ["member_illust.php"][1..]);
    assert pairs[1] == ("illust_id", id) && LastIs(pairs, "illust_id", id);
    ResolvesExactly(host, ["member_illust.php"], pairs, ResolvedLink("pixiv", id, "https://www.pixiv.net/artworks/" + id));
  }

  lemma PixivHostText(host: string)
    requires host == "www.pixiv.net" || host == "pixiv.net"
    ensures IsHostText(host) && !IsLanguage(host, "artworks") && !IsLanguage(host, "member_illust.php")
  {
  }

  lemma IllustrationText(id: string)
    ensures "https://" + "www.pixiv.net" + "/member_illust.php" + ("?" + ("mode=medium" + "&" + ("illust_id=" + id)))
         == Url("www.pixiv.net", ["member_illust.php"], [("mode", "medium"), ("illust_id", id)])
  {
    var pairs := [("mode", "medium"), ("illust_id", id)];
    assert pairs[1..] == [("illust_id", id)] && ["member_illust.php"][1..] == [];
    assert "illust_id" + "=" == "illust_id=" && "mode" + "=" + "medium" == "mode=medium";
    assert QueryOf(pairs[1..]) == "illust_id" + "=" + id;
    assert QueryOf(pairs) == "mode" + "=" + "medium" + "&" + QueryOf(pairs[1..]);
    assert "/" + "member_illust.php" == "/member_illust.php";
    assert PathOf(["member_illust.php"]) == "/" + "member_illust.php" + "";
  }

  /** https://www.pixiv.net/member_illust.php?mode=medium&illust_id=<id> */
  lemma PixivIllustrationText(id: string)
    requires IsId(id)
    ensures Resolve("https://" + "www.pixiv.net" + "/member_illust.php" + ("?" + ("mode=medium" + "&" + ("illust_id=" + id)))) ==
            Some(ResolvedLink("pixiv", id, "https://www.pixiv.net/artworks/" + id))
  {
    hide Resolve, IsId, Url;
    IllustrationText(id);
    PixivForms("www.pixiv.net", id);
  }

  /** A query host gives the last id of the query, whatever the path. */
  lemma QueryForm(host: string, platform: string, home: string, segments: seq<string>, pairs: seq<Pair>, id: string)
    requires QueryHost(host, platform, home) && IsId(id) && Printable(segments, pairs)
    requires LastIs(pairs, "page", "post") && LastIs(pairs, "s", "view") && LastIs(pairs, "id", id)
    ensures Resolve(Url(host, segments, pairs)) ==
            Some(ResolvedLink(platform, id, "https://" + home + "/index.php?page=post&s=view&id=" + id))
  {
    hide Resolve, IsId, LastIs, Url, Printable;
    QueryHostText(host, platform, home);
    ResolvesExactly(host, segments, pairs, ResolvedLink(platform, id, "https://" + home + "/index.php?page=post&s=view&id=" + id));
  }

  lemma QueryHostText(host: string, platform: string, home: string)
    requires QueryHost(host, platform, home)
    ensures IsHostText(host)
  {
  }

  /** Sankaku's posts, on its old host too. */
  lemma SankakuForms(host: string, id: string)
    requires (host == "sankaku.app" || host == "chan.sankakucomplex.com") && IsAlphanumericId(id)
    ensures Resolve(Url(host, ["posts", id], [])) == Some(ResolvedLink("sankaku", id, "https://sankaku.app/posts/" + id))
  {
    hide Resolve, IsLanguage, IsSegment, IsSpace, Url, IsHostText;
    Words();
    SankakuText(host, id);
    SpokenTwo(host, "posts", id);
    ResolvesExactly(host, ["posts", id], [], ResolvedLink("sankaku", id, "https://sankaku.app/posts/" + id));
  }

  lemma SankakuText(host: string, id: string)
    requires (host == "sankaku.app" || host == "chan.sankakucomplex.com") && IsAlphanumericId(id)
    ensures IsHostText(host) && !IsLanguage(host, "posts") && !IsLanguage(host, id) && IsSegment(id) && !IsSpace(id[|id| - 1])
  {
    assert id[|id| - 1] in id;
    if |id| == 5 { assert id[2] in id; }
  }

  /** Pawchive's posts, on either host. */
  lemma PawchiveForms(host: string, service: string, user: string, id: string)
    requires (host == "www.pawchive.pw" || host == "pawchive.pw") && IsService(service) && IsId(user) && IsId(id)
    ensures Resolve(Url(host, [service, "user", user, "post", id], [])) ==
            Some(ResolvedLink("pawchive", service + ":" + user + ":" + id, "https://pawchive.pw/" + service + "/user/" + user + "/post/" + id))
  {
    hide Resolve, IsLanguage, IsSegment, IsSpace, Url, IsHostText, IsId, IsService;
    var path := [service, "user", user, "post", id];
    ServiceText(host, service);
    IdIsPrintable(user);
    IdIsPrintable(id);
    PawchiveHost(host);
    NothingSilent(host, path);
    ResolvesExactly(host, path, [], ResolvedLink("pawchive", service + ":" + user + ":" + id,
                                                 "https://pawchive.pw/" + service + "/user/" + user + "/post/" + id));
  }

  lemma ServiceText(host: string, service: string)
    requires (host == "www.pawchive.pw" || host == "pawchive.pw") && IsService(service)
    ensures IsHostText(host) && IsSegment(service) && IsSegment("user") && IsSegment("post")
  {
  }

  // ----- languages -----

  lemma {:induction false} SilentDropped(host: string, a: seq<string>, language: string, b: seq<string>)
    requires IsLanguage(host, language)
    ensures Spoken(host, a + [language] + b) == Spoken(host, a + b)
  {
    hide IsLanguage;
    if a == [] {
      assert a + [language] + b == [language] + b && ([language] + b)[1..] == b && a + b == b;
    } else {
      SilentDropped(host, a[1..], language, b);
      assert (a + [language] + b)[1..] == a[1..] + [language] + b && (a + b)[1..] == a[1..] + b;
    }
  }

  /** A language segment changes nothing, wherever it stands. */
  lemma LanguageIgnored(host: string, a: seq<string>, language: string, b: seq<string>, pairs: seq<Pair>)
    requires IsHostText(host) && IsLanguage(host, language) && Printable(a + [language] + b, pairs) && Printable(a + b, pairs)
    ensures Resolve(Url(host, a + [language] + b, pairs)) == Resolve(Url(host, a + b, pairs))
  {
    hide Resolve, IsLanguage, Printable, Url, IsHostText;
    var with, without := Resolve(Url(host, a + [language] + b, pairs)), Resolve(Url(host, a + b, pairs));
    SilentDropped(host, a, language, b);
    if with.Some? {
      ResolvesExactly(host, a + [language] + b, pairs, with.value);
      ResolvesExactly(host, a + b, pairs, with.value);
    }
    if without.Some? {
      ResolvesExactly(host, a + [language] + b, pairs, without.value);
      ResolvesExactly(host, a + b, pairs, without.value);
    }
  }
}
