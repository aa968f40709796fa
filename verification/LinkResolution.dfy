/** Resolving a pasted URL to a platform, a target and a canonical URL. */
module LinkResolution {

  import opened Basics
  import opened UrlText
  import opened QueryText

  /** The operation is always fetching one post. */
  datatype ResolvedLink = ResolvedLink(platform: string, target: string, canonicalUrl: string)

  predicate IsPostDigits(s: string) {
    s != "" && '1' <= s[0] <= '9' && forall c | c in s :: IsDigit(c)
  }

  predicate IsSankakuWord(s: string) { 4 <= |s| <= 32 && forall c | c in s :: IsAlnum(c) }

  predicate IsServiceWord(s: string) {
    s != "" && IsLower(s[0]) && forall c | c in s :: IsLower(c) || IsDigit(c) || c == '_' || c == '-'
  }

  /** A `$` in a Python pattern also matches before one final newline. */
  function WithoutNewline(s: string): string {
    if s != "" && s[|s| - 1] == '\n' then s[..|s| - 1] else s
  }

  predicate EndsInNewline(s: string) { s != "" && s[|s| - 1] == '\n' }

  /** _DIGITS, _SANKAKU_ID and _SERVICE. */
  predicate MatchesDigits(s: string) { IsPostDigits(WithoutNewline(s)) }
  predicate MatchesSankaku(s: string) { IsSankakuWord(WithoutNewline(s)) }
  predicate MatchesService(s: string) { IsServiceWord(WithoutNewline(s)) }

  function Suffixless(s: string): string {
    if |s| >= 5 && s[|s| - 5..] == ".json" then s[..|s| - 5] else s
  }

  /** The path segments a family looks at. */
  function Without(segments: seq<string>, drop: string -> bool): seq<string> {
    if segments == [] then []
    else (if drop(segments[0]) then [] else [segments[0]]) + Without(segments[1..], drop)
  }

  /** [a-z]{2}(?:-[a-z]{2})? */
  predicate IsLocale(s: string) {
    (|s| == 2 && IsLower(s[0]) && IsLower(s[1]))
    || (|s| == 5 && IsLower(s[0]) && IsLower(s[1]) && s[2] == '-' && IsLower(s[3]) && IsLower(s[4]))
  }

  function IsEnOrJa(): string -> bool { (s: string) => s == "en" || s == "ja" }
  function IsEn(): string -> bool { (s: string) => s == "en" }
  function IsAnyLocale(): string -> bool { (s: string) => IsLocale(s) }

  function PostPath(segments: seq<string>): seq<string> {
    if |segments| == 3 && segments[0] == "post" && segments[1] == "show" then ["posts", segments[2]] else segments
  }

  function PostOnHost(platform: string, host: string, id: string): ResolvedLink {
    ResolvedLink(platform, id, "https://" + host + "/posts/" + id)
  }

  const DANBOORU_HOSTS := map["danbooru.donmai.us" := "danbooru", "aibooru.online" := "aibooru", "www.aibooru.online" := "aibooru"]
  const E621_HOSTS := map["e621.net" := "e621", "e926.net" := "e926"]
  const GELBOORU_HOSTS := map["gelbooru.com" := "gelbooru", "safebooru.org" := "safebooru", "rule34.xxx" := "rule34",
                              "www.rule34.xxx" := "rule34", "api.rule34.xxx" := "rule34"]

  /** The danbooru and e621 families, after their language segments are dropped. */
  function PostsFamily(platform: string, host: string, segments: seq<string>): Option<ResolvedLink> {
    var path := PostPath(segments);
    if |path| != 2 || path[0] != "posts" || !MatchesDigits(Suffixless(path[1])) then None
    else Some(PostOnHost(platform, host, Suffixless(path[1])))
  }

  function CanonicalGelbooruHost(host: string): string
    requires host in GELBOORU_HOSTS
  {
    if GELBOORU_HOSTS[host] == "rule34" then "rule34.xxx" else host
  }

  function GelbooruPost(platform: string, host: string, id: string): ResolvedLink {
    ResolvedLink(platform, id, "https://" + host + "/index.php?page=post&s=view&id=" + id)
  }

  function GelbooruFamily(host: string, query: seq<Pair>): Option<ResolvedLink>
    requires host in GELBOORU_HOSTS
  {
    var id := LastValue(query, "id");
    if LastValue(query, "page") != "post" || LastValue(query, "s") != "view" || !MatchesDigits(id) then None
    else Some(GelbooruPost(GELBOORU_HOSTS[host], CanonicalGelbooruHost(host), id))
  }

  function PixivPost(id: string): ResolvedLink { ResolvedLink("pixiv", id, "https://www.pixiv.net/artworks/" + id) }

  function Pixiv(path: seq<string>, query: seq<Pair>): Option<ResolvedLink> {
    var segments := Without(path, IsEn());
    if |segments| == 2 && segments[0] == "artworks" then
      if MatchesDigits(segments[1]) then Some(PixivPost(segments[1])) else None
    else if segments == ["member_illust.php"] && HasKey(query, "illust_id") then
      var id := LastValue(query, "illust_id");
      if MatchesDigits(id) then Some(PixivPost(id)) else None
    else None
  }

  function Sankaku(path: seq<string>): Option<ResolvedLink> {
    var segments := Without(path, IsAnyLocale());
    if |segments| != 2 || segments[0] != "posts" || !MatchesSankaku(Suffixless(segments[1])) then None
    else Some(PostOnHost("sankaku", "sankaku.app", Suffixless(segments[1])))
  }

  function PawchivePost(service: string, user: string, id: string): ResolvedLink {
    ResolvedLink("pawchive", service + ":" + user + ":" + id, "https://pawchive.pw/" + service + "/user/" + user + "/post/" + id)
  }

  function Pawchive(path: seq<string>): Option<ResolvedLink> {
    if |path| != 5 || path[1] != "user" || path[3] != "post" then None
    else if !MatchesService(path[0]) || !MatchesDigits(path[2]) || !MatchesDigits(path[4]) then None
    else Some(PawchivePost(path[0], path[2], path[4]))
  }

  function ResolveParts(host: string, path: seq<string>, query: seq<Pair>): Option<ResolvedLink> {
    if host in GELBOORU_HOSTS then GelbooruFamily(host, query)
    else if host in DANBOORU_HOSTS then PostsFamily(DANBOORU_HOSTS[host], host, Without(path, IsEnOrJa()))
    else if host in E621_HOSTS then PostsFamily(E621_HOSTS[host], host, Without(path, IsEn()))
    else if host == "www.pixiv.net" || host == "pixiv.net" then Pixiv(path, query)
    else if host == "sankaku.app" || host == "chan.sankakucomplex.com" then Sankaku(path)
    else if host == "www.pawchive.pw" || host == "pawchive.pw" then Pawchive(path)
    else None
  }

  /** resolve_link; None stands for LinkResolutionError. */
  function Resolve(url: string): Option<ResolvedLink> {
    var parts := UrlSplit(Strip(url));
    if parts.None? || parts.value.scheme != "https" || HostName(parts.value.netloc) == "" then None
    else ResolveParts(HostName(parts.value.netloc), Segments(parts.value.path), ParseQuery(parts.value.query, false))
  }
}
