/** What canonicalization makes of any printed URL of a known host, and which
    post it is then recognized as, written out host by host. */
module LinkReferences {

  import opened Basics
  import opened UrlText
  import opened QueryText
  import opened LinkResolution
  import opened LinkRoundTrip
  import opened LinkRecognition
  import opened LinkForms

  // ----- canonical URLs -----

  /** Hosts that are written with another one's name, or their own. */
  predicate XHost(host: string) { host in {"x.com", "twitter.com", "www.twitter.com", "mobile.twitter.com", "www.x.com"} }
  predicate PixivHost(host: string) { host == "www.pixiv.net" || host == "pixiv.net" }

  predicate BooruHost(host: string) {
    host in {"danbooru.donmai.us", "aibooru.online", "www.aibooru.online", "e621.net", "e926.net",
             "gelbooru.com", "safebooru.org", "rule34.xxx", "www.rule34.xxx", "api.rule34.xxx"}
  }

  predicate OtherHost(host: string) {
    host in {"sankaku.app", "chan.sankakucomplex.com", "pawchive.pw", "www.pawchive.pw", "baraag.net"}
  }

  /** The hosts that get the platform treatment, and the name each is written
      with. */
  predicate KnownHost(host: string, home: string) {
    || (XHost(host) && home == "x.com") || (PixivHost(host) && home == "www.pixiv.net")
    || (host == home && (BooruHost(host) || OtherHost(host)))
  }

  /** A key that only says where the link was clicked, in any case. */
  predicate Tracks(key: string) {
    Lower(key) in {"utm_source", "utm_medium", "utm_campaign", "utm_term", "utm_content"}
  }

  function Telling(pairs: seq<Pair>): seq<Pair> {
    if pairs == [] then [] else if Tracks(pairs[0].0) then Telling(pairs[1..]) else [pairs[0]] + Telling(pairs[1..])
  }

  lemma {:induction false} TellingIs(pairs: seq<Pair>)
    ensures Untracked(pairs) == Telling(pairs) && forall p | p in Telling(pairs) :: p in pairs
  {
    hide Lower;
    if pairs != [] { TellingIs(pairs[1..]); }
  }

  lemma {:induction false} TokenQuoted(s: string)
    requires forall c | c in s :: IsAlnum(c) || c == '_' || c == '-' || c == '.'
    ensures Quote(s) == s
  {
    if s != "" {
      assert s[0] in s && forall c | c in s[1..] :: c in s;
      TokenQuoted(s[1..]);
      assert s == [s[0]] + s[1..];
    }
  }

  lemma {:induction false} TokensEncoded(pairs: seq<Pair>)
    requires Tokens(pairs)
    ensures Encode(pairs) == QueryOf(pairs)
  {
    hide Quote;
    if pairs != [] {
      assert pairs[0] in pairs && forall p | p in pairs[1..] :: p in pairs;
      TokenQuoted(pairs[0].0);
      TokenQuoted(pairs[0].1);
      TokensEncoded(pairs[1..]);
    }
  }

  predicate PlainHost(host: string) { IsHostText(host) && host[|host| - 1] != '.' && host !in SHORTENERS }

  lemma XText(host: string)
    requires XHost(host)
    ensures PlainHost(host)
  {
  }

  lemma PixivText(host: string)
    requires PixivHost(host)
    ensures PlainHost(host)
  {
  }

  lemma BooruText(host: string)
    requires BooruHost(host)
    ensures PlainHost(host)
  {
  }

  lemma OtherText(host: string)
    requires OtherHost(host)
    ensures PlainHost(host)
  {
  }

  lemma KnownHostText(host: string, home: string)
    requires KnownHost(host, home)
    ensures PlainHost(host)
  {
    hide XHost, PixivHost, BooruHost, OtherHost, PlainHost;
    if XHost(host) { XText(host); }
    if PixivHost(host) { PixivText(host); }
    if BooruHost(host) { BooruText(host); }
    if OtherHost(host) { OtherText(host); }
  }

  lemma KnownHostHome(host: string, home: string)
    requires KnownHost(host, home)
    ensures Alias(host) == home && IsRecognizedHost(home)
  {
  }

  lemma {:induction false} PathEndsPlain(segments: seq<string>)
    requires segments != [] && forall s | s in segments :: IsSegment(s)
    ensures var path := PathOf(segments); |path| >= 2 && path[|path| - 1] != '/'
  {
    hide IsPlainText;
    var last := segments[|segments| - 1];
    assert last in segments && last[|last| - 1] in last;
    PathEnds(segments);
  }

  lemma PartsHome(host: string, home: string, path: string, query: string, pairs: seq<Pair>)
    requires KnownHost(host, home) && |path| >= 2 && path[0] == '/' && path[|path| - 1] != '/'
    requires ParseQuery(query, true) == pairs
    ensures CanonicalParts(Parts("https", host, path, query, "")) == Some(Printed(home, path, Encode(Untracked(pairs))))
  {
    hide KnownHost, IsHostText, ParseQuery, Untracked, Encode;
    KnownHostText(host, home);
    KnownHostHome(host, home);
    HostTextReadsBack(host);
    PortFree(host);
    UnsplitPrinted(home, path, Encode(Untracked(pairs)));
  }

  /** A printed URL of a known host keeps its path and its query, without the
      tracking keys, and gets the host's one name. */
  lemma CanonicalForm(host: string, home: string, segments: seq<string>, pairs: seq<Pair>)
    requires KnownHost(host, home) && Printable(segments, pairs)
    ensures Canonicalize(Url(host, segments, pairs)) == Some(Url(home, segments, Telling(pairs))) && Tokens(Telling(pairs))
  {
    hide KnownHost, IsToken, IsSpace, IsPlainText, ParseQuery, IsHostText, CanonicalParts, Encode, Untracked, UrlSplit, Telling;
    KnownHostText(host, home);
    PathReadsBack(segments);
    PathEndsPlain(segments);
    QueryReadsBack(pairs, true);
    TellingIs(pairs);
    TokensEncoded(Telling(pairs));
    PrintedSplits(host, PathOf(segments), QueryOf(pairs));
    PartsHome(host, home, PathOf(segments), QueryOf(pairs), pairs);
  }

  // ----- paths -----

  predicate TwoByTwo(s: string) { |s| == 5 && TwoLetters(s[..2]) && s[2] == '-' && TwoLetters(s[3..]) }

  /** The path after a first segment that names a language, and a region where
      the site has them. */
  function Unlocalized(segments: seq<string>, region: bool): seq<string> {
    if |segments| >= 2 && (TwoLetters(segments[0]) || (region && TwoByTwo(segments[0]))) then segments[1..] else segments
  }

  lemma FirstSegment(segments: seq<string>)
    requires segments != [] && forall s | s in segments :: IsSegment(s)
    ensures var path, a := PathOf(segments), segments[0];
      && |path| >= |a| + 1 && path[0] == '/' && path[1..|a| + 1] == a && path[|a| + 1..] == PathOf(segments[1..])
      && (forall i | 1 <= i <= |a| :: path[i] != '/')
      && (|path| > |a| + 1 <==> |segments| >= 2) && (|segments| >= 2 ==> path[|a| + 1] == '/')
  {
    hide IsPlainText;
    var a := segments[0];
    assert a in segments;
    assert PathOf(segments) == "/" + a + PathOf(segments[1..]);
    forall i | 1 <= i <= |a| ensures PathOf(segments)[i] != '/' { assert a[i - 1] in a; }
  }

  lemma LocaleOff(segments: seq<string>, region: bool)
    requires segments != [] && forall s | s in segments :: IsSegment(s)
    ensures AfterLocale(PathOf(segments), region) == PathOf(Unlocalized(segments, region))
  {
    hide IsSegment, PathOf;
    FirstSegment(segments);
    var path, a := PathOf(segments), segments[0];
    if |a| == 2 {
      assert path[1] == a[0] && path[2] == a[1];
    } else if |a| == 5 {
      assert path[1..6] == a;
      FiveLocale(a);
    }
  }

  lemma FiveLocale(a: string)
    requires |a| == 5
    ensures IsLocale(a) <==> TwoByTwo(a)
  {
    assert a[..2][0] == a[0] && a[..2][1] == a[1] && a[3..][0] == a[3] && a[3..][1] == a[4];
  }

  /** A prefix of two path segments is followed by the third. */
  lemma AfterOne(a: string, rest: seq<string>, id: string)
    requires IsSegment(a) && IsSegment(id) && forall s | s in rest :: IsSegment(s)
    ensures After("/" + a + "/", PathOf(rest)) == Some(id) <==> rest == [a, id]
  {
    hide IsPlainText, Segments;
    var prefix := "/" + a + "/";
    PathReadsBack(rest);
    PathReadsBack([a, id]);
    PathTwo(a, id);
    if After(prefix, PathOf(rest)) == Some(id) {
      assert PathOf(rest) == prefix + id;
    }
    if rest == [a, id] {
      assert PathOf(rest) == prefix + id && (prefix + id)[|prefix|..] == id && prefix <= prefix + id;
    }
  }

  lemma PathTwo(a: string, b: string)
    ensures PathOf([a, b]) == "/" + a + "/" + b
  {
    assert [a, b][1..] == [b] && [b][1..] == [];
    assert PathOf([b]) == "/" + b + "";
  }

  lemma PathThree(a: string, b: string, c: string)
    ensures PathOf([a, b, c]) == "/" + a + "/" + b + "/" + c
  {
    assert [a, b, c][1..] == [b, c];
    PathTwo(b, c);
  }

  lemma AfterTwo(a: string, b: string, rest: seq<string>, id: string)
    requires IsSegment(a) && IsSegment(b) && IsSegment(id) && forall s | s in rest :: IsSegment(s)
    ensures After("/" + a + "/" + b + "/", PathOf(rest)) == Some(id) <==> rest == [a, b, id]
  {
    hide IsPlainText, Segments;
    var prefix := "/" + a + "/" + b + "/";
    PathReadsBack(rest);
    PathReadsBack([a, b, id]);
    PathThree(a, b, id);
    if After(prefix, PathOf(rest)) == Some(id) {
      assert PathOf(rest) == prefix + id;
    }
    if rest == [a, b, id] {
      assert PathOf(rest) == prefix + id && (prefix + id)[|prefix|..] == id && prefix <= prefix + id;
    }
  }

  // ----- what is recognized -----

  predicate Digits(s: string) { s != "" && forall c | c in s :: '0' <= c <= '9' }

  lemma DigitsIsSegment(s: string)
    requires Digits(s) || IsAlphanumericId(s)
    ensures IsSegment(s)
  {
  }

  /** The post's page, under its path of today or of before. */
  predicate PostPage(rest: seq<string>, id: string) {
    Digits(id) && (rest == ["posts", id] || rest == ["post", "show", id])
  }

  lemma PostPathReads(platform: string, host: string, segments: seq<string>, r: Reference)
    requires segments != [] && forall s | s in segments :: IsSegment(s)
    ensures var rest := Unlocalized(segments, true);
      RecognizePostPath(platform, host, PathOf(segments)) == Some(r) <==>
        || (PostPage(rest, r.nativeId) && r == Reference(platform, r.nativeId, "https://" + host + "/posts/" + r.nativeId))
        || (platform == "sankaku" && !Digits(r.nativeId) && IsAlphanumericId(r.nativeId) && rest == ["posts", r.nativeId]
            && r == Reference("sankaku", r.nativeId, "https://sankaku.app/posts/" + r.nativeId))
  {
    hide IsSegment, PathOf, IsAlphanumericId, IsPlainText;
    var rest := Unlocalized(segments, true);
    LocaleOff(segments, true);
    PostPrefixes();
    assert forall s | s in rest :: s in segments;
    var posts, legacy := After("/posts/", PathOf(rest)), After("/post/show/", PathOf(rest));
    Words();
    if posts.Some? {
      SankakuWordIs(posts.value);
      if IsNumber(posts.value) || IsSankakuWord(posts.value) { PostRead(rest, posts.value); }
    }
    if legacy.Some? && IsNumber(legacy.value) { LegacyRead(rest, legacy.value); }
    if Digits(r.nativeId) || IsAlphanumericId(r.nativeId) { PostRead(rest, r.nativeId); LegacyRead(rest, r.nativeId); }
    SankakuWordIs(r.nativeId);
    SankakuHomeText(r.nativeId);
  }

  lemma SankakuWordIs(s: string)
    ensures IsSankakuWord(s) <==> IsAlphanumericId(s)
  {
  }

  lemma SankakuHomeText(id: string)
    ensures "https://" + "sankaku.app" + "/posts/" + id == "https://sankaku.app/posts/" + id
  {
    assert "https://" + "sankaku.app" + "/posts/" == "https://sankaku.app/posts/";
  }

  lemma PostPrefixes()
    ensures "/posts/" == "/" + "posts" + "/" && "/post/show/" == "/" + "post" + "/" + "show" + "/"
  {
  }

  lemma PostRead(rest: seq<string>, id: string)
    requires (Digits(id) || IsAlphanumericId(id)) && forall s | s in rest :: IsSegment(s)
    ensures After("/posts/", PathOf(rest)) == Some(id) <==> rest == ["posts", id]
  {
    hide IsSegment, PathOf;
    DigitsIsSegment(id);
    PostPrefixes();
    Words();
    AfterOne("posts", rest, id);
  }

  lemma LegacyRead(rest: seq<string>, id: string)
    requires (Digits(id) || IsAlphanumericId(id)) && forall s | s in rest :: IsSegment(s)
    ensures After("/post/show/", PathOf(rest)) == Some(id) <==> rest == ["post", "show", id]
  {
    hide IsSegment, PathOf;
    DigitsIsSegment(id);
    PostPrefixes();
    Words();
    AfterTwo("post", "show", rest, id);
  }

  lemma PixivPathReads(segments: seq<string>, r: Reference)
    requires segments != [] && forall s | s in segments :: IsSegment(s)
    ensures RecognizePixiv(PathOf(segments)) == Some(r) <==>
            && Digits(r.nativeId) && Unlocalized(segments, false) == ["artworks", r.nativeId]
            && r == Reference("pixiv", r.nativeId, "https://www.pixiv.net/artworks/" + r.nativeId)
  {
    hide IsSegment, PathOf, IsPlainText;
    var rest := Unlocalized(segments, false);
    LocaleOff(segments, false);
    assert forall s | s in rest :: s in segments;
    var id := After("/artworks/", PathOf(rest));
    if id.Some? && IsNumber(id.value) { ArtworkRead(rest, id.value); }
    if Digits(r.nativeId) { ArtworkRead(rest, r.nativeId); }
  }

  lemma ArtworkRead(rest: seq<string>, id: string)
    requires Digits(id) && forall s | s in rest :: IsSegment(s)
    ensures After("/artworks/", PathOf(rest)) == Some(id) <==> rest == ["artworks", id]
  {
    hide IsSegment, PathOf;
    assert "/artworks/" == "/" + "artworks" + "/";
    DigitsIsSegment(id);
    PixivWords();
    AfterOne("artworks", rest, id);
  }

  /** The post that a canonical URL of this host names. */
  ghost predicate NamesPost(home: string, segments: seq<string>, pairs: seq<Pair>, r: Reference) {
    var id := r.nativeId;
    || (PathHost(home, r.platform) && PostPage(Unlocalized(segments, true), id) && r.targetUrl == "https://" + home + "/posts/" + id)
    || (home in {"sankaku.app", "chan.sankakucomplex.com"} && r.platform == "sankaku"
        && ((PostPage(Unlocalized(segments, true), id) && r.targetUrl == "https://" + home + "/posts/" + id)
            || (!Digits(id) && IsAlphanumericId(id) && Unlocalized(segments, true) == ["posts", id]
                && r.targetUrl == "https://sankaku.app/posts/" + id)))
    || (home == "www.pixiv.net" && r.platform == "pixiv" && Digits(id) && Unlocalized(segments, false) == ["artworks", id]
        && r.targetUrl == "https://www.pixiv.net/artworks/" + id)
    || (exists name :: && QueryHost(home, r.platform, name) && Digits(id)
                       && LastIs(pairs, "page", "post") && LastIs(pairs, "s", "view") && LastIs(pairs, "id", id)
                       && r.targetUrl == "https://" + name + "/index.php?page=post&s=view&id=" + id)
  }

  lemma BooruFamily(home: string)
    requires IsBooru(home)
    ensures home in GELBOORU_HOSTS <==> exists p, name :: QueryHost(home, p, name)
    ensures home !in GELBOORU_HOSTS ==> PathHost(home, BooruPlatform(home)) || (home in {"sankaku.app", "chan.sankakucomplex.com"})
    ensures home in {"sankaku.app", "chan.sankakucomplex.com"} ==> BooruPlatform(home) == "sankaku" && home !in GELBOORU_HOSTS
    ensures forall p | PathHost(home, p) :: p == BooruPlatform(home) && p != "sankaku" && home !in GELBOORU_HOSTS
    ensures home != "www.pixiv.net"
  {
    hide QueryHost;
    OneFamily(home);
  }

  lemma PathPostNamed(home: string, segments: seq<string>, pairs: seq<Pair>, r: Reference)
    requires IsBooru(home) && home !in GELBOORU_HOSTS && segments != [] && forall s | s in segments :: IsSegment(s)
    ensures RecognizeBooru(home, PathOf(segments), QueryOf(pairs)) == Some(r) <==> NamesPost(home, segments, pairs, r)
  {
    hide PathHost, QueryHost, PostPage, Digits, IsAlphanumericId, PathOf, IsSegment, LastIs, Unlocalized, RecognizePostPath, BooruPlatform, QueryOf;
    BooruFamily(home);
    PostPathReads(BooruPlatform(home), home, segments, r);
  }

  lemma QueryPostNamed(home: string, segments: seq<string>, pairs: seq<Pair>, r: Reference)
    requires home in GELBOORU_HOSTS && Tokens(pairs)
    ensures IsBooru(home)
    ensures RecognizeBooru(home, PathOf(segments), QueryOf(pairs)) == Some(r) <==> NamesPost(home, segments, pairs, r)
  {
    hide PathHost, QueryHost, PostPage, IsAlphanumericId, PathOf, LastIs, Unlocalized, BooruPlatform, QueryOf, LastValue, ParseQuery, IsToken;
    BooruFamily(home);
    QueryReadsBack(pairs, true);
    LastReads(pairs, "page", "post");
    LastReads(pairs, "s", "view");
    var id := LastValue(pairs, "id");
    if Digits(r.nativeId) { LastReads(pairs, "id", r.nativeId); }
    if Digits(id) { LastReads(pairs, "id", id); }
    QueryTargets(home, r.nativeId);
  }

  lemma QueryTargets(home: string, id: string)
    requires home in GELBOORU_HOSTS
    ensures IsBooru(home) && BooruPlatform(home) == GELBOORU_HOSTS[home]
    ensures GelbooruTarget(BooruPlatform(home), id) == "https://" + CanonicalGelbooruHost(home) + "/index.php?page=post&s=view&id=" + id
    ensures forall p, name :: QueryHost(home, p, name) <==> p == BooruPlatform(home) && name == CanonicalGelbooruHost(home)
    ensures home !in {"sankaku.app", "chan.sankakucomplex.com", "www.pixiv.net"} && forall p :: !PathHost(home, p)
  {
  }

  lemma LastAdded(first: Pair, pairs: seq<Pair>, key: string, value: string)
    ensures LastIs([first] + pairs, key, value) <==>
            LastIs(pairs, key, value) || (first == (key, value) && forall p | p in pairs :: p.0 != key)
  {
    var more := [first] + pairs;
    if k :| 0 <= k < |more| && more[k] == (key, value) && forall j | k < j < |more| :: more[j].0 != key {
      if k > 0 {
        assert pairs[k - 1] == (key, value);
        forall j | k - 1 < j < |pairs| ensures pairs[j].0 != key { assert more[j + 1] == pairs[j]; }
      } else {
        forall p | p in pairs ensures p.0 != key { var j :| 0 <= j < |pairs| && pairs[j] == p; assert more[j + 1] == p; }
      }
    }
    if k :| 0 <= k < |pairs| && pairs[k] == (key, value) && forall j | k < j < |pairs| :: pairs[j].0 != key {
      assert more[k + 1] == (key, value);
      forall j | k + 1 < j < |more| ensures more[j].0 != key { assert more[j] == pairs[j - 1]; }
    }
    if first == (key, value) && forall p | p in pairs :: p.0 != key {
      assert more[0] == (key, value) && forall j | 0 < j < |more| :: more[j] == pairs[j - 1] && more[j] in pairs;
    }
  }

  lemma {:induction false} TellingLast(pairs: seq<Pair>, key: string, value: string)
    requires !Tracks(key)
    ensures LastIs(Telling(pairs), key, value) <==> LastIs(pairs, key, value)
    ensures (forall p | p in Telling(pairs) :: p.0 != key) <==> (forall p | p in pairs :: p.0 != key)
  {
    hide Tracks, LastIs;
    if pairs == [] {
      assert Telling(pairs) == pairs;
    } else {
      var rest := pairs[1..];
      TellingLast(rest, key, value);
      assert pairs == [pairs[0]] + rest;
      LastAdded(pairs[0], rest, key, value);
      LastAdded(pairs[0], Telling(rest), key, value);
      TellingKeys(pairs[0], rest, key);
      TellingKeys(pairs[0], Telling(rest), key);
    }
  }

  lemma TellingKeys(first: Pair, pairs: seq<Pair>, key: string)
    ensures (forall p | p in [first] + pairs :: p.0 != key) <==> first.0 != key && forall p | p in pairs :: p.0 != key
  {
    if first.0 != key && forall p | p in pairs :: p.0 != key {
      forall p | p in [first] + pairs ensures p.0 != key { assert p == first || p in pairs; }
    }
    if forall p | p in [first] + pairs :: p.0 != key {
      assert first in [first] + pairs && forall p | p in pairs :: p in [first] + pairs;
    }
  }

  lemma UntrackedKeys()
    ensures !Tracks("page") && !Tracks("s") && !Tracks("id")
  {
    Untracking();
  }

  lemma NamesTelling(home: string, segments: seq<string>, pairs: seq<Pair>, r: Reference)
    ensures NamesPost(home, segments, Telling(pairs), r) <==> NamesPost(home, segments, pairs, r)
  {
    hide PathHost, QueryHost, PostPage, Digits, IsAlphanumericId, LastIs, Unlocalized, Tracks, Telling;
    UntrackedKeys();
    TellingLast(pairs, "page", "post");
    TellingLast(pairs, "s", "view");
    TellingLast(pairs, "id", r.nativeId);
  }

  /** The hosts of the five families. */
  predicate PostHome(home: string) { BooruHost(home) || home in {"sankaku.app", "chan.sankakucomplex.com", "www.pixiv.net"} }

  lemma PostHomeBooru(home: string)
    requires PostHome(home)
    ensures home == "www.pixiv.net" || IsBooru(home)
    ensures home == "www.pixiv.net" ==> !IsBooru(home) && home !in GELBOORU_HOSTS && home !in DANBOORU_HOSTS && home !in E621_HOSTS
  {
  }

  lemma HomeText(host: string, home: string)
    requires KnownHost(host, home)
    ensures KnownHost(home, home)
  {
  }

  lemma CanonicalRecognized(home: string, segments: seq<string>, pairs: seq<Pair>, r: Reference)
    requires PostHome(home) && KnownHost(home, home) && Tokens(pairs) && segments != [] && forall s | s in segments :: IsSegment(s)
    ensures RecognizeCanonical(Url(home, segments, pairs)) == Some(r) <==> NamesPost(home, segments, pairs, r)
  {
    hide KnownHost, IsToken, IsSpace, IsPlainText, ParseQuery, IsHostText, RecognizePixiv, RecognizeBooru, PostHome, IsBooru, NamesPost,
         RecognizeCanonical;
    KnownHostText(home, home);
    PathReadsBack(segments);
    PathEndsPlain(segments);
    QueryReadsBack(pairs, true);
    PostHomeBooru(home);
    RecognizePrinted(home, PathOf(segments), QueryOf(pairs));
    if home == "www.pixiv.net" {
      PixivNamed(home, segments, pairs, r);
    } else if home in GELBOORU_HOSTS {
      QueryPostNamed(home, segments, pairs, r);
    } else {
      PathPostNamed(home, segments, pairs, r);
    }
  }

  lemma PixivNamed(home: string, segments: seq<string>, pairs: seq<Pair>, r: Reference)
    requires home == "www.pixiv.net" && segments != [] && forall s | s in segments :: IsSegment(s)
    ensures RecognizePixiv(PathOf(segments)) == Some(r) <==> NamesPost(home, segments, pairs, r)
  {
    hide PostPage, Digits, IsAlphanumericId, PathOf, IsSegment, LastIs, Unlocalized, RecognizePixiv;
    PixivPathReads(segments, r);
  }

  lemma UrlStripped(url: string)
    requires url != "" && url[0] == 'h' && !IsSpace(url[|url| - 1])
    ensures Strip(url) == url
  {
    StripKeeps(url);
  }

  /** A printed URL of one of the five families is recognized as a post exactly
      when, whatever its language, its host's name and its tracking keys, it
      names that post. */
  lemma RecognizesExactly(host: string, home: string, segments: seq<string>, pairs: seq<Pair>, r: Reference)
    requires KnownHost(host, home) && PostHome(home) && Printable(segments, pairs)
    ensures Recognize(Url(host, segments, pairs)) == Some(r) <==> NamesPost(home, segments, pairs, r)
  {
    hide KnownHost, PostHome, NamesPost, Canonicalize, RecognizeCanonical, IsSpace, IsToken, IsPlainText, Telling;
    var url := Url(host, segments, pairs);
    UrlEnds(host, segments, pairs);
    UrlStripped(url);
    CanonicalForm(host, home, segments, pairs);
    HomeText(host, home);
    CanonicalRecognized(home, segments, Telling(pairs), r);
    NamesTelling(home, segments, pairs, r);
  }
}
