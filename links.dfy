/**
 * `loadLinks`: from an episode's data string to the subtitles and stream
 * links pushed into the caller's two callbacks.
 *
 * The site is seen only through `Site`, whose functions stand for the
 * already-parsed answers of its endpoints and of the foreign extractors.
 */
module Links {
  import opened Text
  import opened Episodes

  const MainUrl: string := "https://hianime.to"

  /** The fixed API servers queried for every mirror, in this order. */
  const ServerList: seq<string> := ["hd-1", "hd-2"]

  /** Links from the fallback extractor whose URL contains this are dropped. */
  const Blacklisted: string := "betterstream"

  // ---------------------------------------------------------------------
  // Taking the episode data string apart

  /** `dubType`: the text before the first `|` once every `mainUrl/` is removed. */
  function DubType(data: string): (t: string)
    ensures '|' !in t
    ensures StartsWith(RemoveAll(data, MainUrl + "/"), t)
    ensures |t| < |RemoveAll(data, MainUrl + "/")| ==> RemoveAll(data, MainUrl + "/")[|t|] == '|'
  {
    BeforeFirst(RemoveAll(data, MainUrl + "/"), '|')
  }

  /** `epId`: the text after the last `|`, then after the last `=`. */
  function EpId(data: string): (id: string)
    ensures EndsWith(data, id) && '|' !in id && '=' !in id
    ensures EndsWith(AfterLast(data, '|'), id)
    ensures '=' in AfterLast(data, '|') ==> AfterLast(data, '|')[|AfterLast(data, '|')| - |id| - 1] == '='
    ensures '=' !in AfterLast(data, '|') ==> id == AfterLast(data, '|')
  {
    var tail := AfterLast(data, '|');
    var id := AfterLast(tail, '=');
    EndsWithTrans(data, tail, id);
    id
  }

  /** `animeEpisodeId`: the text after the last `/`, then before the last `-`. */
  function AnimeEpisodeId(data: string): (id: string)
    ensures '/' !in id
    ensures StartsWith(AfterLast(data, '/'), id)
    ensures '-' in AfterLast(data, '/') ==> id + "-" + AfterLast(AfterLast(data, '/'), '-') == AfterLast(data, '/')
    ensures '-' !in AfterLast(data, '/') ==> id == AfterLast(data, '/')
  {
    var tail := AfterLast(data, '/');
    var id := BeforeLast(tail, '-');
    assert '-' in tail ==> tail[..|id|] == id by {
      if '-' in tail {
        assert tail == id + ['-'] + AfterLast(tail, '-');
      }
    }
    id
  }

  /**
   * The data an episode is stored with: its data string, possibly made
   * absolute by the site prefix (`mainUrl/`) before the app hands it back.
   */
  function StoredData(t: Track, href: string, prefixed: bool): string {
    (if prefixed then MainUrl + "/" else "") + EpisodeData(t, href)
  }

  /**
   * An episode's data string gives back the track it was filed under,
   * with or without the site prefix: the prefix is what `replace` strips.
   */
  lemma {:induction false} DubTypeOfEpisodeData(t: Track, href: string, prefixed: bool)
    ensures DubType(StoredData(t, href, prefixed)) == TagName(t)
  {
    var pat := MainUrl + "/";
    var tag := TagName(t);
    var data := EpisodeData(t, href);
    if prefixed {
      assert StoredData(t, href, prefixed) == pat + data;
      RemoveAllLeading(pat, data);
    } else {
      assert StoredData(t, href, prefixed) == data;
    }
    assert RemoveAll(StoredData(t, href, prefixed), pat) == RemoveAll(data, pat);
    assert pat[0] == 'h' && 'h' !in tag + "|";
    RemoveAllKeepsPrefix(tag + "|", href, pat);
    assert RemoveAll(data, pat) == tag + ['|'] + RemoveAll(href, pat);
    BeforeFirstOfJoin(tag, '|', RemoveAll(href, pat));
  }

  /**
   * For a link without `|`, `epId` is the link's text after its last `=`,
   * with or without the site prefix.
   */
  lemma {:induction false} EpIdOfEpisodeData(t: Track, href: string, prefixed: bool)
    requires '|' !in href
    ensures EpId(StoredData(t, href, prefixed)) == AfterLast(href, '=')
  {
    var head := (if prefixed then MainUrl + "/" else "") + TagName(t);
    assert StoredData(t, href, prefixed) == head + ['|'] + href;
    AfterLastOfJoin(head, '|', href);
  }

  /**
   * For a link ending in a `/`-free last segment `s`, `animeEpisodeId` is
   * the part of `s` before its last `-` (the slug without the number, as
   * in `one-piece-100?ep=2142`), with or without the site prefix.
   */
  lemma {:induction false} AnimeEpisodeIdOfEpisodeData(t: Track, p: string, s: string, prefixed: bool)
    requires '/' !in s
    ensures AnimeEpisodeId(StoredData(t, p + "/" + s, prefixed)) == BeforeLast(s, '-')
  {
    var head := (if prefixed then MainUrl + "/" else "") + TagName(t) + "|" + p;
    assert StoredData(t, p + "/" + s, prefixed) == head + ['/'] + s;
    AfterLastOfJoin(head, '/', s);
  }

  /** What `loadLinks` reads off its data string. */
  datatype LinkRequest = LinkRequest(dubType: string, epId: string, animeEpisodeId: string)

  function ParseData(data: string): LinkRequest {
    LinkRequest(DubType(data), EpId(data), AnimeEpisodeId(data))
  }

  // ---------------------------------------------------------------------
  // Server selection

  /** One `.server-item` element: its `data-type` and `data-id`, `None` when absent. */
  datatype ServerItem = ServerItem(dataType: Option<string>, dataId: Option<string>)

  /** The selector `.server-item[data-type=dubType][data-id]` and `attr("data-id")`. */
  function SelectServers(items: seq<ServerItem>, dubType: string): (ids: seq<string>)
    ensures |ids| <= |items|
    ensures forall id :: id in ids <==>
      exists k :: 0 <= k < |items| && items[k].dataType == Some(dubType) && items[k].dataId == Some(id)
  {
    if items == [] then []
    else
      var tail := SelectServers(items[1..], dubType);
      assert forall k :: 0 < k < |items| ==> items[k] == items[1..][k - 1];
      assert forall k :: 0 <= k < |items| - 1 ==> items[1..][k] == items[k + 1];
      if items[0].dataType == Some(dubType) && items[0].dataId.Some? then [items[0].dataId.value] + tail
      else tail
  }

  /** The id one server item contributes: its `data-id` when it matches the track. */
  function ItemId(item: ServerItem, dubType: string): seq<string> {
    if item.dataType == Some(dubType) && item.dataId.Some? then [item.dataId.value] else []
  }

  /** Selection over consecutive parts of the page keeps their order. */
  lemma {:induction false} SelectServersOfConcat(a: seq<ServerItem>, b: seq<ServerItem>, dubType: string)
    ensures SelectServers(a + b, dubType) == SelectServers(a, dubType) + SelectServers(b, dubType)
    decreases |a|
  {
    if a == [] {
      assert a + b == b;
    } else {
      assert (a + b)[1..] == a[1..] + b;
      SelectServersOfConcat(a[1..], b, dubType);
    }
  }

  /**
   * `select(...).map { it.attr("data-id") }` gives one id per matching item,
   * in page order: an item contributes its own id, if it matches, between
   * the ids of the items before and after it.
   */
  lemma SelectServersOfPage(a: seq<ServerItem>, item: ServerItem, b: seq<ServerItem>, dubType: string)
    ensures SelectServers(a + [item] + b, dubType) ==
      SelectServers(a, dubType) + ItemId(item, dubType) + SelectServers(b, dubType)
  {
    SelectServersOfConcat(a + [item], b, dubType);
    SelectServersOfConcat(a, [item], dubType);
    SelectServersOfOne(item, dubType);
  }

  lemma SelectServersOfOne(item: ServerItem, dubType: string)
    ensures SelectServers([item], dubType) == ItemId(item, dubType)
  {
    assert [item][1..] == [];
  }

  predicate NoDuplicates(s: seq<string>) {
    forall i, j :: 0 <= i < j < |s| ==> s[i] != s[j]
  }

  /** The position of the first `x` in `s`. */
  function FirstIndex(s: seq<string>, x: string): (k: nat)
    requires x in s
    ensures k < |s| && s[k] == x && x !in s[..k]
  {
    if s[0] == x then 0
    else
      var k := FirstIndex(s[1..], x);
      assert s[..k + 1] == [s[0]] + s[1..][..k];
      k + 1
  }

  /**
   * Kotlin `distinct()`: each element once, where it first occurs. Written
   * the way a linked hash set is filled: an element at the end is added
   * only if it was not seen before.
   */
  function Distinct(s: seq<string>): (r: seq<string>)
    ensures NoDuplicates(r)
    ensures forall x :: x in r <==> x in s
    ensures |r| <= |s|
  {
    if s == [] then []
    else
      var init, x := s[..|s| - 1], s[|s| - 1];
      assert s == init + [x];
      var d := Distinct(init);
      if x in init then d else d + [x]
  }

  /** The first `x` does not move when something is added at the end. */
  lemma {:induction false} FirstIndexOfSnoc(s: seq<string>, y: string, x: string)
    requires x in s
    ensures FirstIndex(s + [y], x) == FirstIndex(s, x)
  {
    if s[0] != x {
      assert (s + [y])[1..] == s[1..] + [y];
      FirstIndexOfSnoc(s[1..], y, x);
    }
  }

  /** `distinct()` keeps elements in the order of their first occurrence. */
  lemma {:induction false} DistinctKeepsFirstOccurrenceOrder(s: seq<string>)
    ensures forall i, j :: 0 <= i < j < |Distinct(s)| ==>
      FirstIndex(s, Distinct(s)[i]) < FirstIndex(s, Distinct(s)[j])
  {
    if s != [] {
      var init, x := s[..|s| - 1], s[|s| - 1];
      assert s == init + [x];
      DistinctKeepsFirstOccurrenceOrder(init);
      var d := Distinct(init);
      forall y | y in d
        ensures FirstIndex(s, y) == FirstIndex(init, y) < |init|
      {
        FirstIndexOfSnoc(init, x, y);
      }
      if x !in init {
        assert FirstIndex(s, x) == |init| by {
          assert forall j :: 0 <= j < |init| ==> s[j] == init[j];
        }
      }
    }
  }

  /** On a list without repetitions `distinct()` changes nothing, so it is idempotent. */
  lemma {:induction false} DistinctOfDistinct(s: seq<string>)
    requires NoDuplicates(s)
    ensures Distinct(s) == s
  {
    if s != [] {
      var init, x := s[..|s| - 1], s[|s| - 1];
      assert s == init + [x];
      assert NoDuplicates(init) by {
        forall i, j | 0 <= i < j < |init| ensures init[i] != init[j] {
          assert init[i] == s[i] && init[j] == s[j];
        }
      }
      DistinctOfDistinct(init);
      assert x !in init by {
        forall i | 0 <= i < |init| ensures init[i] != x {
          assert init[i] == s[i];
        }
      }
    }
  }

  // ---------------------------------------------------------------------
  // What the site and the foreign extractors answer

  /** One `HianimeSource`: a manifest URL and its type. */
  datatype Source = Source(url: string, kind: string)

  /** One `HianimeTrack`: a subtitle file and its optional language label (`label`). */
  datatype SubtitleTrack = SubtitleTrack(file: string, language: Option<string>, kind: string)

  /** The `data` of a successful sources-API answer (intro, outro and ids left out). */
  datatype SourcesData = SourcesData(tracks: seq<SubtitleTrack>, sources: seq<Source>)

  /** The parameters of one sources-API query. */
  datatype ApiQuery = ApiQuery(animeEpisodeId: string, epId: string, server: string, category: string)

  /** What the subtitle callback receives. */
  datatype SubtitleFile = SubtitleFile(lang: string, url: string)

  /**
   * What the stream callback receives: a name, a URL and a referer. For
   * the sources API this is the manifest handed to the playlist helper.
   */
  datatype Link = Link(name: string, url: string, referer: string)

  /** Everything an extractor pushed into the two callbacks. */
  datatype Extraction = Extraction(links: seq<Link>, subtitles: seq<SubtitleFile>)

  /** `loadExtractor`: what it pushed, and whether it reported success. */
  datatype ExtractorRun = ExtractorRun(loaded: bool, output: Extraction)

  /**
   * The endpoints and extractors, as total functions of their request:
   * the server list of an episode id, the sources API (`None` when the
   * answer does not parse), the intermediary link of a mirror id, and the
   * generic and rabbit-stream extractors applied to that link.
   */
  datatype Site = Site(
    serverList: string -> seq<ServerItem>,
    sources: ApiQuery -> Option<SourcesData>,
    intermediary: string -> string,
    extractor: string -> ExtractorRun,
    rabbit: string -> Extraction)

  // ---------------------------------------------------------------------
  // What reaches the callbacks

  /** The distinct mirror ids of the requested track, in page order. */
  function Mirrors(site: Site, req: LinkRequest): (ids: seq<string>)
    ensures NoDuplicates(ids)
    ensures forall id :: id in ids <==>
      exists item :: item in site.serverList(req.epId) && item.dataType == Some(req.dubType) && item.dataId == Some(id)
  {
    Distinct(SelectServers(site.serverList(req.epId), req.dubType))
  }

  function StreamLabel(server: string, dubType: string): string {
    "HiAnime " + Upper(server) + " " + Upper(dubType)
  }

  function QueryFor(req: LinkRequest, server: string): ApiQuery {
    ApiQuery(req.animeEpisodeId, req.epId, server, req.dubType)
  }

  /**
   * The stream one API server yields: only when its answer parsed and
   * lists at least one source, and then only the first source's URL.
   */
  function ServerStream(site: Site, req: LinkRequest, server: string): (l: Option<Link>)
    ensures l.Some? <==> site.sources(QueryFor(req, server)).Some? && |site.sources(QueryFor(req, server)).value.sources| > 0
    ensures l.Some? ==> l.value.url == site.sources(QueryFor(req, server)).value.sources[0].url
    ensures l.Some? ==> l.value.name == StreamLabel(server, req.dubType) && l.value.referer == ""
  {
    match site.sources(QueryFor(req, server))
    case Some(d) => if |d.sources| > 0 then Some(Link(StreamLabel(server, req.dubType), d.sources[0].url, "")) else None
    case None => None
  }

  /** Every track becomes `(label ?: "", file)`, in order. */
  function TrackSubtitles(tracks: seq<SubtitleTrack>): (r: seq<SubtitleFile>)
    ensures |r| == |tracks|
    ensures forall i :: 0 <= i < |tracks| ==> r[i] == SubtitleFile(tracks[i].language.GetOr(""), tracks[i].file)
  {
    if tracks == [] then []
    else [SubtitleFile(tracks[0].language.GetOr(""), tracks[0].file)] + TrackSubtitles(tracks[1..])
  }

  /** The subtitles one API server yields: all its tracks, whether or not it had sources. */
  function ServerSubtitles(site: Site, req: LinkRequest, server: string): (r: seq<SubtitleFile>)
    ensures site.sources(QueryFor(req, server)).None? ==> r == []
    ensures site.sources(QueryFor(req, server)).Some? ==> r == TrackSubtitles(site.sources(QueryFor(req, server)).value.tracks)
  {
    match site.sources(QueryFor(req, server))
    case Some(d) => TrackSubtitles(d.tracks)
    case None => []
  }

  /** The link a present stream contributes to the list: one or none. */
  function Listed(l: Option<Link>): seq<Link> {
    if l.Some? then [l.value] else []
  }

  /** The streams of the API servers, server by server. */
  function ApiLinks(site: Site, req: LinkRequest, servers: seq<string>): (r: seq<Link>)
  {
    if servers == [] then []
    else
      var init, last := servers[..|servers| - 1], servers[|servers| - 1];
      ApiLinks(site, req, init) + Listed(ServerStream(site, req, last))
  }

  /** The subtitles of the API servers, server by server. */
  function ApiSubtitles(site: Site, req: LinkRequest, servers: seq<string>): (r: seq<SubtitleFile>)
  {
    if servers == [] then []
    else
      var init, last := servers[..|servers| - 1], servers[|servers| - 1];
      ApiSubtitles(site, req, init) + ServerSubtitles(site, req, last)
  }

  /** The filter wrapped around the stream callback for the fallback extractor. */
  function Allowed(links: seq<Link>): (r: seq<Link>)
    ensures |r| <= |links|
    ensures forall l :: l in r <==> l in links && !Contains(l.url, Blacklisted)
  {
    if links == [] then []
    else
      var tail := Allowed(links[1..]);
      assert forall l :: l in links <==> l == links[0] || l in links[1..];
      if Contains(links[0].url, Blacklisted) then tail else [links[0]] + tail
  }

  /**
   * The streams of the intermediary link: the generic extractor's, then,
   * only when it reported failure, the rabbit-stream extractor's minus the
   * blacklisted ones.
   */
  function FallbackLinks(site: Site, link: string): (r: seq<Link>)
    ensures site.extractor(link).loaded ==> r == site.extractor(link).output.links
    ensures forall l :: l in r <==>
      || l in site.extractor(link).output.links
      || (!site.extractor(link).loaded && l in site.rabbit(link).links && !Contains(l.url, Blacklisted))
  {
    var run := site.extractor(link);
    run.output.links + (if run.loaded then [] else Allowed(site.rabbit(link).links))
  }

  /** The subtitles of the intermediary link; the rabbit-stream ones are not filtered. */
  function FallbackSubtitles(site: Site, link: string): (r: seq<SubtitleFile>)
    ensures site.extractor(link).loaded ==> r == site.extractor(link).output.subtitles
    ensures !site.extractor(link).loaded ==> r == site.extractor(link).output.subtitles + site.rabbit(link).subtitles
  {
    var run := site.extractor(link);
    run.output.subtitles + (if run.loaded then [] else site.rabbit(link).subtitles)
  }

  /** The streams one mirror yields: the API servers', then the intermediary link's. */
  function MirrorLinks(site: Site, req: LinkRequest, mirror: string): seq<Link> {
    ApiLinks(site, req, ServerList) + FallbackLinks(site, site.intermediary(mirror))
  }

  function MirrorSubtitles(site: Site, req: LinkRequest, mirror: string): seq<SubtitleFile> {
    ApiSubtitles(site, req, ServerList) + FallbackSubtitles(site, site.intermediary(mirror))
  }

  /**
   * The streams of all mirrors, mirror by mirror. The API part does not
   * depend on the mirror id, so it repeats once per mirror.
   */
  function AllLinks(site: Site, req: LinkRequest, mirrors: seq<string>): (r: seq<Link>)
    ensures mirrors == [] ==> r == []
  {
    if mirrors == [] then []
    else AllLinks(site, req, mirrors[..|mirrors| - 1]) + MirrorLinks(site, req, mirrors[|mirrors| - 1])
  }

  function AllSubtitles(site: Site, req: LinkRequest, mirrors: seq<string>): (r: seq<SubtitleFile>)
    ensures mirrors == [] ==> r == []
  {
    if mirrors == [] then []
    else AllSubtitles(site, req, mirrors[..|mirrors| - 1]) + MirrorSubtitles(site, req, mirrors[|mirrors| - 1])
  }

  lemma Associative<T>(a: seq<T>, b: seq<T>, c: seq<T>)
    ensures a + (b + c) == (a + b) + c
  {
  }

  /** Asking one more API server adds its stream and its subtitles at the end. */
  lemma ApiSnoc(site: Site, req: LinkRequest, servers: seq<string>, server: string)
    ensures ApiLinks(site, req, servers + [server]) == ApiLinks(site, req, servers) + Listed(ServerStream(site, req, server))
    ensures ApiSubtitles(site, req, servers + [server]) == ApiSubtitles(site, req, servers) + ServerSubtitles(site, req, server)
  {
    assert (servers + [server])[..|servers|] == servers;
  }

  /** One more mirror adds its streams and subtitles at the end. */
  lemma AllSnoc(site: Site, req: LinkRequest, mirrors: seq<string>, mirror: string)
    ensures AllLinks(site, req, mirrors + [mirror]) == AllLinks(site, req, mirrors) + MirrorLinks(site, req, mirror)
    ensures AllSubtitles(site, req, mirrors + [mirror]) == AllSubtitles(site, req, mirrors) + MirrorSubtitles(site, req, mirror)
  {
    assert (mirrors + [mirror])[..|mirrors|] == mirrors;
  }

  /** The API servers are asked in the fixed order "hd-1" then "hd-2". */
  lemma ApiInServerOrder(site: Site, req: LinkRequest)
    ensures ApiLinks(site, req, ServerList) ==
      Listed(ServerStream(site, req, "hd-1")) + Listed(ServerStream(site, req, "hd-2"))
    ensures ApiSubtitles(site, req, ServerList) ==
      ServerSubtitles(site, req, "hd-1") + ServerSubtitles(site, req, "hd-2")
  {
    ApiSnoc(site, req, [], "hd-1");
    assert [] + ["hd-1"] == ["hd-1"];
    ApiSnoc(site, req, ["hd-1"], "hd-2");
    assert ServerList == ["hd-1"] + ["hd-2"];
  }

  /** A stream comes from the API servers exactly when one of them yields it. */
  lemma {:induction false} ApiLinksOrigin(site: Site, req: LinkRequest, servers: seq<string>, l: Link)
    ensures l in ApiLinks(site, req, servers) <==> exists s :: s in servers && ServerStream(site, req, s) == Some(l)
  {
    if servers != [] {
      var init, last := servers[..|servers| - 1], servers[|servers| - 1];
      assert servers == init + [last];
      ApiLinksOrigin(site, req, init, l);
      assert forall s :: s in servers <==> s == last || s in init;
    }
  }

  /**
   * One subbed mirror whose "hd-1" answer lists sources and whose "hd-2"
   * answer lists none, with an intermediary link the generic extractor
   * handles without a stream: exactly one stream, labelled for "hd-1",
   * with the first source's URL.
   */
  lemma OneServerScenario(site: Site, req: LinkRequest, mirror: string)
    requires req.dubType == "sub"
    requires site.sources(QueryFor(req, "hd-1")).Some? && |site.sources(QueryFor(req, "hd-1")).value.sources| > 0
    requires site.sources(QueryFor(req, "hd-2")).None? || site.sources(QueryFor(req, "hd-2")).value.sources == []
    requires site.extractor(site.intermediary(mirror)) == ExtractorRun(true, Extraction([], []))
    ensures AllLinks(site, req, [mirror]) ==
      [Link("HiAnime HD-1 SUB", site.sources(QueryFor(req, "hd-1")).value.sources[0].url, "")]
  {
    var url := site.sources(QueryFor(req, "hd-1")).value.sources[0].url;
    assert StreamLabel("hd-1", "sub") == "HiAnime HD-1 SUB" by {
      assert Upper("hd-1") == "HD-1";
      assert Upper("sub") == "SUB";
    }
    ApiInServerOrder(site, req);
    assert ApiLinks(site, req, ServerList) == [Link("HiAnime HD-1 SUB", url, "")];
    assert FallbackLinks(site, site.intermediary(mirror)) == [];
    AllSnoc(site, req, [], mirror);
    assert [] + [mirror] == [mirror];
  }

  /** Every API stream reaches the caller at least once per distinct mirror. */
  lemma {:induction false} ApiLinksRepeatPerMirror(site: Site, req: LinkRequest, mirrors: seq<string>, l: Link)
    requires l in ApiLinks(site, req, ServerList)
    ensures multiset(AllLinks(site, req, mirrors))[l] >= |mirrors|
  {
    if mirrors != [] {
      var init := mirrors[..|mirrors| - 1];
      ApiLinksRepeatPerMirror(site, req, init, l);
      var api := ApiLinks(site, req, ServerList);
      var fb := FallbackLinks(site, site.intermediary(mirrors[|mirrors| - 1]));
      var prev := AllLinks(site, req, init);
      assert AllLinks(site, req, mirrors) == prev + (api + fb);
      assert multiset(prev + (api + fb)) == multiset(prev) + multiset(api) + multiset(fb);
    }
  }

  /**
   * A stream reaches the caller only from the API servers (when there is a
   * mirror at all) or from the intermediary link of one of the mirrors,
   * and every stream from those sources does reach it.
   */
  lemma {:induction false} AllLinksOrigin(site: Site, req: LinkRequest, mirrors: seq<string>, l: Link)
    ensures l in AllLinks(site, req, mirrors) <==>
      || (mirrors != [] && l in ApiLinks(site, req, ServerList))
      || exists m :: m in mirrors && l in FallbackLinks(site, site.intermediary(m))
  {
    if mirrors != [] {
      var init, last := mirrors[..|mirrors| - 1], mirrors[|mirrors| - 1];
      assert mirrors == init + [last];
      AllLinksOrigin(site, req, init, l);
      assert forall m :: m in mirrors <==> m == last || m in init;
    }
  }

  /**
   * A rabbit-stream link of a mirror whose generic extractor failed is
   * delivered exactly when its URL is not blacklisted (unless the same
   * link also came from another source).
   */
  lemma RabbitLinkDelivered(site: Site, req: LinkRequest, mirrors: seq<string>, m: string, l: Link)
    requires m in mirrors && !site.extractor(site.intermediary(m)).loaded
    requires l in site.rabbit(site.intermediary(m)).links
    requires l !in ApiLinks(site, req, ServerList)
    requires forall m' :: m' in mirrors ==> l !in site.extractor(site.intermediary(m')).output.links
    ensures l in AllLinks(site, req, mirrors) <==> !Contains(l.url, Blacklisted)
  {
    AllLinksOrigin(site, req, mirrors, l);
  }

  // ---------------------------------------------------------------------
  // The callbacks and the procedure

  /** The caller's subtitle and stream callbacks, as the lists they have received. */
  class Sinks {
    var links: seq<Link>
    var subtitles: seq<SubtitleFile>

    constructor ()
      ensures links == [] && subtitles == []
    {
      links, subtitles := [], [];
    }

    method Stream(l: Link)
      modifies this
      ensures links == old(links) + [l] && subtitles == old(subtitles)
    {
      links := links + [l];
    }

    method Subtitle(f: SubtitleFile)
      modifies this
      ensures subtitles == old(subtitles) + [f] && links == old(links)
    {
      subtitles := subtitles + [f];
    }
  }

  /** Replays the subtitles a foreign extractor pushed into the subtitle callback. */
  method ForwardSubtitles(sinks: Sinks, files: seq<SubtitleFile>)
    modifies sinks
    ensures sinks.subtitles == old(sinks.subtitles) + files && sinks.links == old(sinks.links)
  {
    for i := 0 to |files|
      invariant sinks.subtitles == old(sinks.subtitles) + files[..i]
      invariant sinks.links == old(sinks.links)
    {
      sinks.Subtitle(files[i]);
    }
    assert files[..|files|] == files;
  }

  /** Filtering one more link at the end. */
  lemma {:induction false} AllowedSnoc(links: seq<Link>, l: Link)
    ensures Allowed(links + [l]) == Allowed(links) + (if Contains(l.url, Blacklisted) then [] else [l])
  {
    if links == [] {
      assert [] + [l] == [l];
      assert [l][1..] == [];
    } else {
      assert (links + [l])[1..] == links[1..] + [l];
      AllowedSnoc(links[1..], l);
    }
  }

  /** The links that get through, with or without the blacklist filter. */
  function Passed(links: seq<Link>, filter: bool): seq<Link> {
    if filter then Allowed(links) else links
  }

  /** Passing one more link at the end. */
  lemma PassedSnoc(links: seq<Link>, l: Link, filter: bool)
    ensures Passed(links + [l], filter) ==
      Passed(links, filter) + (if filter && Contains(l.url, Blacklisted) then [] else [l])
  {
    if filter {
      AllowedSnoc(links, l);
    }
  }

  /**
   * Replays the streams a foreign extractor pushed into the stream
   * callback, through the blacklist filter when `filter` is set.
   */
  method ForwardLinks(sinks: Sinks, links: seq<Link>, filter: bool)
    modifies sinks
    ensures sinks.links == old(sinks.links) + Passed(links, filter)
    ensures sinks.subtitles == old(sinks.subtitles)
  {
    for i := 0 to |links|
      invariant sinks.subtitles == old(sinks.subtitles)
      invariant sinks.links == old(sinks.links) + Passed(links[..i], filter)
    {
      var l := links[i];
      assert links[..i + 1] == links[..i] + [l];
      PassedSnoc(links[..i], l, filter);
      if !filter || !Contains(l.url, Blacklisted) {
        sinks.Stream(l);
      }
    }
    assert links[..|links|] == links;
  }

  /** Forwards every track of one answer as `(label ?: "", file)`. */
  method ForwardTracks(sinks: Sinks, tracks: seq<SubtitleTrack>)
    modifies sinks
    ensures sinks.subtitles == old(sinks.subtitles) + TrackSubtitles(tracks)
    ensures sinks.links == old(sinks.links)
  {
    ghost var all := TrackSubtitles(tracks);
    for t := 0 to |tracks|
      invariant sinks.subtitles == old(sinks.subtitles) + all[..t]
      invariant sinks.links == old(sinks.links)
    {
      var track := tracks[t];
      sinks.Subtitle(SubtitleFile(track.language.GetOr(""), track.file));
      assert all[..t + 1] == all[..t] + [all[t]];
    }
    assert all[..|tracks|] == all;
  }

  /** One pass of the `for (server in serverlist)` loop. */
  method EmitServer(sinks: Sinks, site: Site, req: LinkRequest, server: string)
    modifies sinks
    ensures sinks.links == old(sinks.links) + Listed(ServerStream(site, req, server))
    ensures sinks.subtitles == old(sinks.subtitles) + ServerSubtitles(site, req, server)
  {
    var answer := site.sources(QueryFor(req, server));
    if answer.Some? {
      var d := answer.value;
      if |d.sources| > 0 {
        sinks.Stream(Link(StreamLabel(server, req.dubType), d.sources[0].url, ""));
      }
      ForwardTracks(sinks, d.tracks);
    } else {
      assert sinks.links + [] == sinks.links && sinks.subtitles + [] == sinks.subtitles;
    }
  }

  /** The `for (server in serverlist)` loop of one mirror. */
  method EmitApiSources(sinks: Sinks, site: Site, req: LinkRequest)
    modifies sinks
    ensures sinks.links == old(sinks.links) + ApiLinks(site, req, ServerList)
    ensures sinks.subtitles == old(sinks.subtitles) + ApiSubtitles(site, req, ServerList)
  {
    for k := 0 to |ServerList|
      invariant sinks.links == old(sinks.links) + ApiLinks(site, req, ServerList[..k])
      invariant sinks.subtitles == old(sinks.subtitles) + ApiSubtitles(site, req, ServerList[..k])
    {
      var server := ServerList[k];
      assert ServerList[..k + 1] == ServerList[..k] + [server];
      ApiSnoc(site, req, ServerList[..k], server);
      EmitServer(sinks, site, req, server);
      Associative(old(sinks.links), ApiLinks(site, req, ServerList[..k]), Listed(ServerStream(site, req, server)));
      Associative(old(sinks.subtitles), ApiSubtitles(site, req, ServerList[..k]), ServerSubtitles(site, req, server));
    }
    assert ServerList[..|ServerList|] == ServerList;
  }

  /**
   * The intermediary link of one mirror: the generic extractor, then, only
   * when it reports failure, the rabbit-stream extractor behind the
   * blacklist filter.
   */
  method EmitFallback(sinks: Sinks, site: Site, link: string)
    modifies sinks
    ensures sinks.links == old(sinks.links) + FallbackLinks(site, link)
    ensures sinks.subtitles == old(sinks.subtitles) + FallbackSubtitles(site, link)
  {
    var run := site.extractor(link);
    ForwardLinks(sinks, run.output.links, false);
    ForwardSubtitles(sinks, run.output.subtitles);
    if !run.loaded {
      var rabbit := site.rabbit(link);
      ghost var links0, subtitles0 := sinks.links, sinks.subtitles;
      ForwardLinks(sinks, rabbit.links, true);
      ForwardSubtitles(sinks, rabbit.subtitles);
      Associative(old(sinks.links), run.output.links, Allowed(rabbit.links));
      Associative(old(sinks.subtitles), run.output.subtitles, rabbit.subtitles);
    } else {
      assert run.output.links + [] == run.output.links;
      assert run.output.subtitles + [] == run.output.subtitles;
    }
  }

  /** One mirror of the `apmap`: the API servers, then the intermediary link. */
  method EmitMirror(sinks: Sinks, site: Site, req: LinkRequest, mirror: string)
    modifies sinks
    ensures sinks.links == old(sinks.links) + MirrorLinks(site, req, mirror)
    ensures sinks.subtitles == old(sinks.subtitles) + MirrorSubtitles(site, req, mirror)
  {
    EmitApiSources(sinks, site, req);
    EmitFallback(sinks, site, site.intermediary(mirror));
    Associative(old(sinks.links), ApiLinks(site, req, ServerList), FallbackLinks(site, site.intermediary(mirror)));
    Associative(old(sinks.subtitles), ApiSubtitles(site, req, ServerList), FallbackSubtitles(site, site.intermediary(mirror)));
  }

  /** The `apmap` over the mirrors, run one mirror after another. */
  method EmitMirrors(sinks: Sinks, site: Site, req: LinkRequest, mirrors: seq<string>)
    modifies sinks
    ensures sinks.links == old(sinks.links) + AllLinks(site, req, mirrors)
    ensures sinks.subtitles == old(sinks.subtitles) + AllSubtitles(site, req, mirrors)
  {
    for i := 0 to |mirrors|
      invariant sinks.links == old(sinks.links) + AllLinks(site, req, mirrors[..i])
      invariant sinks.subtitles == old(sinks.subtitles) + AllSubtitles(site, req, mirrors[..i])
    {
      assert mirrors[..i + 1] == mirrors[..i] + [mirrors[i]];
      AllSnoc(site, req, mirrors[..i], mirrors[i]);
      EmitMirror(sinks, site, req, mirrors[i]);
      Associative(old(sinks.links), AllLinks(site, req, mirrors[..i]), MirrorLinks(site, req, mirrors[i]));
      Associative(old(sinks.subtitles), AllSubtitles(site, req, mirrors[..i]), MirrorSubtitles(site, req, mirrors[i]));
    }
    assert mirrors[..|mirrors|] == mirrors;
  }

  /** `loadLinks`: every distinct mirror in page order; the answer is always `true`. */
  method LoadLinks(sinks: Sinks, site: Site, data: string) returns (ok: bool)
    modifies sinks
    ensures ok
    ensures sinks.links == old(sinks.links) + AllLinks(site, ParseData(data), Mirrors(site, ParseData(data)))
    ensures sinks.subtitles == old(sinks.subtitles) + AllSubtitles(site, ParseData(data), Mirrors(site, ParseData(data)))
  {
    var req := ParseData(data);
    EmitMirrors(sinks, site, req, Mirrors(site, req));
    ok := true;
  }
}
