/** The Instagram link validator (src/lib/instagram-validator.ts).

    The link pattern is anchored at the start of the link: an optional
    `http://` or `https://`, an optional `www.`, then `instagram.com/`, one of
    the content segments `p`, `reel`, `tv` or `stories` followed by `/`, and
    a non-empty run of letters, digits, `_` and `-` (the identifier, capture
    group 4). It is not anchored at the end. The pattern is deterministic:
    each optional group is taken exactly when its text is present, the four
    content segments start with different letters, and the identifier run is
    greedy. It is therefore modelled as a direct matcher
    that strips one part after another. `Compose` is the reference it is
    proved against: it builds the link that a given decomposition describes. */
module InstagramValidator {
  import opened Common

  datatype Scheme = NoScheme | Http | Https

  /** The four content segments the pattern accepts: `p`, `reel`, `tv`, `stories`. */
  datatype ContentType = Post | Reel | Tv | Stories

  /** How a link splits along the pattern: everything after the identifier
      run is `rest`, which the pattern does not constrain (it is not
      end-anchored). */
  datatype LinkMatch = LinkMatch(scheme: Scheme, www: bool, content: ContentType, id: string, rest: string)

  const Domain := "instagram.com/"

  function SchemeText(s: Scheme): string {
    match s
    case NoScheme => ""
    case Http => "http://"
    case Https => "https://"
  }

  function Segment(c: ContentType): string {
    match c
    case Post => "p"
    case Reel => "reel"
    case Tv => "tv"
    case Stories => "stories"
  }

  function WwwText(www: bool): string {
    if www then "www." else ""
  }

  /** The character class `[a-zA-Z0-9_-]`. */
  predicate IsIdChar(c: char) {
    ('a' <= c <= 'z') || ('A' <= c <= 'Z') || ('0' <= c <= '9') || c == '_' || c == '-'
  }

  ghost predicate IsIdRun(s: string) {
    |s| > 0 && forall i :: 0 <= i < |s| ==> IsIdChar(s[i])
  }

  /** The link a decomposition describes. */
  function Compose(m: LinkMatch): string {
    SchemeText(m.scheme) + (WwwText(m.www) + AfterWww(m))
  }

  /** The part of a composed link that follows the optional `www.`. */
  function AfterWww(m: LinkMatch): string {
    Domain + (Segment(m.content) + ("/" + (m.id + m.rest)))
  }

  /** A decomposition the pattern produces: a non-empty identifier run that
      is maximal, because the run `[a-zA-Z0-9_-]+` is greedy. */
  ghost predicate WellFormed(m: LinkMatch) {
    IsIdRun(m.id) && (m.rest == [] || !IsIdChar(m.rest[0]))
  }

  /** The longest prefix of `s` made of identifier characters. */
  function TakeIdRun(s: string): (r: string)
    ensures |r| <= |s| && r == s[..|r|]
    ensures forall i :: 0 <= i < |r| ==> IsIdChar(r[i])
    ensures |r| == |s| || !IsIdChar(s[|r|])
    decreases |s|
  {
    if s != [] && IsIdChar(s[0]) then [s[0]] + TakeIdRun(s[1..]) else []
  }

  function MatchScheme(s: string): (r: (Scheme, string))
    ensures s == SchemeText(r.0) + r.1
  {
    if StartsWith(s, "https://") then
      SplitAfterPrefix(s, "https://"); (Https, s[8..])
    else if StartsWith(s, "http://") then
      SplitAfterPrefix(s, "http://"); (Http, s[7..])
    else (NoScheme, s)
  }

  function MatchWww(s: string): (r: (bool, string))
    ensures s == WwwText(r.0) + r.1
  {
    if StartsWith(s, "www.") then
      SplitAfterPrefix(s, "www."); (true, s[4..])
    else (false, s)
  }

  /** `(p|reel|tv|stories)/` at the start of `s`. */
  function MatchSegment(s: string): (r: Option<(ContentType, string)>)
    ensures r.Some? ==> s == Segment(r.value.0) + ("/" + r.value.1)
  {
    if StartsWith(s, "p/") then
      SplitAfterPrefix(s, "p/"); Some((Post, s[2..]))
    else if StartsWith(s, "reel/") then
      SplitAfterPrefix(s, "reel/"); Some((Reel, s[5..]))
    else if StartsWith(s, "tv/") then
      SplitAfterPrefix(s, "tv/"); Some((Tv, s[3..]))
    else if StartsWith(s, "stories/") then
      SplitAfterPrefix(s, "stories/"); Some((Stories, s[8..]))
    else None
  }

  /** The pattern applied to a whole link: `INSTAGRAM_URL_REGEX`. */
  function MatchLink(url: string): (r: Option<LinkMatch>)
    ensures r.Some? ==> WellFormed(r.value) && Compose(r.value) == url
  {
    var (scheme, afterScheme) := MatchScheme(url);
    var (www, afterWww) := MatchWww(afterScheme);
    if !StartsWith(afterWww, Domain) then None
    else
      SplitAfterPrefix(afterWww, Domain);
      match MatchSegment(afterWww[|Domain|..])
      case None => None
      case Some((content, afterSegment)) =>
        var id := TakeIdRun(afterSegment);
        if id == [] then None
        else
          SplitAfterPrefix(afterSegment, id);
          Some(LinkMatch(scheme, www, content, id, afterSegment[|id|..]))
  }

  /** `isValidInstagramUrl`. `hostOf` is the WHATWG URL parser's `hostname`,
      `None` when the `URL` constructor throws; the thrown error is caught and
      the answer is `false`. */
  function IsValidInstagramUrl(url: string, hostOf: string -> Option<string>): (valid: bool)
    ensures valid ==> url != ""
    ensures valid ==> hostOf(url) == Some("www.instagram.com") || hostOf(url) == Some("instagram.com")
    ensures valid ==> exists m :: WellFormed(m) && Compose(m) == url
  {
    if url == "" then false
    else
      var host := hostOf(url);
      if host != Some("www.instagram.com") && host != Some("instagram.com") then false
      else MatchLink(url).Some?
  }

  /** `getInstagramVideoId`: capture group 4, with no host or parse check. */
  function GetInstagramVideoId(url: string): (id: Option<string>)
    ensures id.Some? ==> IsIdRun(id.value)
  {
    match MatchLink(url)
    case Some(m) => Some(m.id)
    case None => None
  }

  /** Stripping the scheme from a composed link recovers the scheme. */
  lemma MatchSchemeCompose(m: LinkMatch)
    ensures MatchScheme(Compose(m)) == (m.scheme, WwwText(m.www) + AfterWww(m))
  {
    var tail := WwwText(m.www) + AfterWww(m);
    StartsWithAppend(SchemeText(m.scheme), tail);
    assert tail[0] == 'w' || tail[0] == 'i';
    match m.scheme
    case Https =>
    case Http =>
      NotStartsWithAt(Compose(m), "https://", 4);
    case NoScheme =>
      NotStartsWithAt(tail, "https://", 0);
      NotStartsWithAt(tail, "http://", 0);
  }

  lemma MatchWwwCompose(m: LinkMatch)
    ensures MatchWww(WwwText(m.www) + AfterWww(m)) == (m.www, AfterWww(m))
  {
    StartsWithAppend(WwwText(m.www), AfterWww(m));
    if !m.www {
      assert AfterWww(m)[0] == 'i';
      NotStartsWithAt(AfterWww(m), "www.", 0);
    }
  }

  lemma MatchSegmentCompose(c: ContentType, tail: string)
    ensures MatchSegment(Segment(c) + ("/" + tail)) == Some((c, tail))
  {
    var s := Segment(c) + ("/" + tail);
    StartsWithAppend(Segment(c) + "/", tail);
    assert s == (Segment(c) + "/") + tail;
    match c
    case Post =>
    case Reel =>
      NotStartsWithAt(s, "p/", 0);
    case Tv =>
      NotStartsWithAt(s, "p/", 0);
      NotStartsWithAt(s, "reel/", 0);
    case Stories =>
      NotStartsWithAt(s, "p/", 0);
      NotStartsWithAt(s, "reel/", 0);
      NotStartsWithAt(s, "tv/", 0);
  }

  /** The greedy run stops exactly at the end of a maximal run. */
  lemma {:induction false} TakeIdRunOfMaximal(id: string, rest: string)
    requires forall i :: 0 <= i < |id| ==> IsIdChar(id[i])
    requires rest == [] || !IsIdChar(rest[0])
    ensures TakeIdRun(id + rest) == id
    decreases |id|
  {
    if id != [] {
      assert (id + rest)[1..] == id[1..] + rest;
      TakeIdRunOfMaximal(id[1..], rest);
    } else {
      assert id + rest == rest;
    }
  }

  /** Completeness of the matcher: every decomposition the pattern can
      produce is found. Together with the postcondition of `MatchLink` this
      makes `MatchLink` and `Compose` inverse to each other. */
  lemma MatchLinkComplete(m: LinkMatch)
    requires WellFormed(m)
    ensures MatchLink(Compose(m)) == Some(m)
  {
    MatchSchemeCompose(m);
    MatchWwwCompose(m);
    StartsWithAppend(Domain, Segment(m.content) + ("/" + (m.id + m.rest)));
    MatchSegmentCompose(m.content, m.id + m.rest);
    TakeIdRunOfMaximal(m.id, m.rest);
    StartsWithAppend(m.id, m.rest);
  }

  /** The pattern matches exactly the links that decompose along it. */
  lemma MatchLinkExact(url: string)
    ensures MatchLink(url).Some? <==> exists m :: WellFormed(m) && Compose(m) == url
  {
    if exists m :: WellFormed(m) && Compose(m) == url {
      var m :| WellFormed(m) && Compose(m) == url;
      MatchLinkComplete(m);
    }
  }

  /** `getInstagramVideoId` returns a value exactly when the pattern matches,
      and the value is the maximal identifier run of that decomposition. */
  lemma VideoIdExact(url: string)
    ensures GetInstagramVideoId(url).Some? <==> exists m :: WellFormed(m) && Compose(m) == url
    ensures forall m :: WellFormed(m) && Compose(m) == url ==> GetInstagramVideoId(url) == Some(m.id)
  {
    MatchLinkExact(url);
    forall m | WellFormed(m) && Compose(m) == url
      ensures GetInstagramVideoId(url) == Some(m.id)
    {
      MatchLinkComplete(m);
    }
  }

  /** The pattern is not end-anchored: text after a matching prefix, such
      as a query string, does not change the identifier. */
  lemma TrailingTextKeepsId(m: LinkMatch, extra: string)
    requires WellFormed(m)
    requires m.rest != [] || extra == [] || !IsIdChar(extra[0])
    ensures GetInstagramVideoId(Compose(m) + extra) == Some(m.id)
  {
    var m' := m.(rest := m.rest + extra);
    assert Compose(m') == Compose(m) + extra;
    if m.rest != [] {
      assert m'.rest[0] == m.rest[0];
    }
    MatchLinkComplete(m');
  }

  /** Validation is the conjunction of three independent conditions: a
      non-empty link, one of the two accepted host names, and a match. */
  lemma ValidExact(url: string, hostOf: string -> Option<string>)
    ensures IsValidInstagramUrl(url, hostOf) <==>
            url != "" &&
            (hostOf(url) == Some("www.instagram.com") || hostOf(url) == Some("instagram.com")) &&
            exists m :: WellFormed(m) && Compose(m) == url
  {
    MatchLinkExact(url);
  }

  /** The empty link is never valid, and a link whose parsed host is any
      other name (another subdomain, or a parse failure) is rejected even
      when the pattern matches it. */
  lemma RejectedHosts(url: string, hostOf: string -> Option<string>)
    requires url == "" || (hostOf(url) != Some("www.instagram.com") && hostOf(url) != Some("instagram.com"))
    ensures !IsValidInstagramUrl(url, hostOf)
  {
  }

  /** Both functions use the same pattern, so every valid link has an id. */
  lemma ValidHasId(url: string, hostOf: string -> Option<string>)
    requires IsValidInstagramUrl(url, hostOf)
    ensures GetInstagramVideoId(url).Some?
  {
  }

  /** Without a scheme the `URL` constructor would throw, but the identifier
      is still extracted. */
  lemma SchemelessLinkId()
    ensures GetInstagramVideoId("instagram.com/reel/abc") == Some("abc")
  {
    var m := LinkMatch(NoScheme, false, Reel, "abc", "");
    assert Compose(m) == "instagram.com/reel/abc";
    MatchLinkComplete(m);
  }
}
