/**
 * The episode list of a detail page (`load`): the anime id taken from the
 * page path, and the loop that files each listed episode under the
 * subbed list, the dubbed list, or both, according to the sub and dub
 * counts shown on the page.
 */
module Episodes {
  import opened Text

  /** The audio track an episode entry is filed under. */
  datatype Track = Sub | Dub

  function TagName(t: Track): string {
    match t
    case Sub => "sub"
    case Dub => "dub"
  }

  /**
   * One `.ss-list > a.ep-item` link after selection: its `href`, its
   * `title` and its `.ssli-order` text already parsed as a number.
   */
  datatype EpisodeItem = EpisodeItem(href: string, title: string, order: Option<int>)

  /** An episode as handed to the app; `data` is what `loadLinks` receives later. */
  datatype Episode = Episode(data: string, name: string, episode: Option<int>)

  /** The data string of an episode: the track tag, a `|`, then the link. */
  function EpisodeData(t: Track, href: string): string {
    TagName(t) + "|" + href
  }

  function MakeEpisode(t: Track, item: EpisodeItem): Episode {
    Episode(EpisodeData(t, item.href), item.title, item.order)
  }

  /**
   * How many of `n` listed episodes a count admits: none when the count is
   * missing (not a number on the page) or not positive, else at most `count`.
   */
  function Admitted(n: nat, count: Option<int>): (k: nat)
    ensures k <= n
    ensures count.None? ==> k == 0
    ensures count.Some? && 0 <= count.value <= n ==> k == count.value
    ensures count.Some? && count.value >= n ==> k == n
  {
    match count
    case None => 0
    case Some(c) => if c <= 0 then 0 else if c < n then c else n
  }

  /** `animeId`: the last `-`-separated segment of the page path. */
  function AnimeId(path: string): (id: string)
    ensures EndsWith(path, id) && '-' !in id
    ensures |id| < |path| ==> path[|path| - |id| - 1] == '-'
    ensures '-' !in path ==> id == path
  {
    AfterLast(path, '-')
  }

  /**
   * The `forEachIndexed` loop of `load`: item `i` joins the subbed list when
   * `i < subCount` and, independently, the dubbed list when `i < dubCount`.
   * A failed episode-list request (`list == None`) lists nothing.
   */
  method SplitEpisodes(list: Option<seq<EpisodeItem>>, subCount: Option<int>, dubCount: Option<int>)
    returns (sub: seq<Episode>, dub: seq<Episode>)
    ensures var items := list.GetOr([]);
      && |sub| == Admitted(|items|, subCount)
      && (forall i :: 0 <= i < |sub| ==> sub[i] == MakeEpisode(Sub, items[i]))
      && |dub| == Admitted(|items|, dubCount)
      && (forall i :: 0 <= i < |dub| ==> dub[i] == MakeEpisode(Dub, items[i]))
    ensures forall e :: e in sub ==> StartsWith(e.data, "sub|")
    ensures forall e :: e in dub ==> StartsWith(e.data, "dub|")
  {
    sub, dub := [], [];
    var items := list.GetOr([]);
    for i := 0 to |items|
      invariant |sub| == Admitted(i, subCount)
      invariant forall j :: 0 <= j < |sub| ==> sub[j] == MakeEpisode(Sub, items[j])
      invariant |dub| == Admitted(i, dubCount)
      invariant forall j :: 0 <= j < |dub| ==> dub[j] == MakeEpisode(Dub, items[j])
    {
      var ep := items[i];
      AdmittedStep(i, subCount);
      AdmittedStep(i, dubCount);
      if subCount.Some? && i < subCount.value {
        sub := sub + [MakeEpisode(Sub, ep)];
      }
      if dubCount.Some? && i < dubCount.value {
        dub := dub + [MakeEpisode(Dub, ep)];
      }
    }
    Tagged(sub, Sub, items);
    Tagged(dub, Dub, items);
  }

  /** One more listed episode is admitted exactly when the count reaches past it. */
  lemma AdmittedStep(i: nat, count: Option<int>)
    ensures Admitted(i + 1, count) == Admitted(i, count) + (if count.Some? && i < count.value then 1 else 0)
  {
  }

  /** Episodes made for a track carry that track's tag at the front of their data. */
  lemma Tagged(eps: seq<Episode>, t: Track, items: seq<EpisodeItem>)
    requires |eps| <= |items|
    requires forall i :: 0 <= i < |eps| ==> eps[i] == MakeEpisode(t, items[i])
    ensures forall e :: e in eps ==> StartsWith(e.data, TagName(t) + "|")
  {
    forall e | e in eps
      ensures StartsWith(e.data, TagName(t) + "|")
    {
      var j :| 0 <= j < |eps| && eps[j] == e;
      assert e.data == TagName(t) + "|" + items[j].href;
    }
  }
}
