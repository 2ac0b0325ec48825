/**
 * Classification of the site's free-text labels: the type line of a
 * search card (`getType`) and the "Status" entry of a detail page
 * (`getStatus`).
 */
module Classify {
  import opened Text

  datatype TvType = Anime | AnimeMovie | OVA

  datatype ShowStatus = Completed | Ongoing

  /**
   * `getType`: a text naming "OVA" or "Special" anywhere is an OVA, even
   * when it also says "Movie"; otherwise "Movie" anywhere makes it a
   * movie; everything else, the empty text included, is a series.
   */
  function GetType(t: string): (r: TvType)
    ensures r == OVA <==> (exists i :: OccursAt(t, "OVA", i)) || (exists i :: OccursAt(t, "Special", i))
    ensures r == AnimeMovie <==> r != OVA && exists i :: OccursAt(t, "Movie", i)
    ensures t == "" ==> r == Anime
  {
    ContainsIffOccurs(t, "OVA");
    ContainsIffOccurs(t, "Special");
    ContainsIffOccurs(t, "Movie");
    if Contains(t, "OVA") || Contains(t, "Special") then OVA
    else if Contains(t, "Movie") then AnimeMovie
    else Anime
  }

  /** `getStatus`: only the exact text "Currently Airing" means ongoing. */
  function GetStatus(t: string): (r: ShowStatus)
    ensures r == Ongoing <==> t == "Currently Airing"
  {
    match t
    case "Finished Airing" => Completed
    case "Currently Airing" => Ongoing
    case _ => Completed
  }

  /**
   * Surrounding a type line with more text never demotes it: an OVA stays
   * an OVA, and a movie becomes at most an OVA, never a plain series.
   */
  lemma {:induction false} GetTypeStableInContext(a: string, t: string, b: string)
    ensures GetType(t) == OVA ==> GetType(a + t + b) == OVA
    ensures GetType(t) != Anime ==> GetType(a + t + b) != Anime
  {
    if Contains(t, "OVA") { ContainsInContext(a, t, b, "OVA"); }
    if Contains(t, "Special") { ContainsInContext(a, t, b, "Special"); }
    if Contains(t, "Movie") { ContainsInContext(a, t, b, "Movie"); }
  }
}
