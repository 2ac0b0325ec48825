/**
 * The video interceptor: for segment requests (`.ts`) that are not
 * `OPTIONS` probes and do not go to the blacklisted provider, the request
 * goes out with an `SID` header when the extension's `sid` table holds a
 * session id for the stream being played.
 */
module Interceptor {
  import opened Text
  import Links

  const Options: string := "OPTIONS"

  const SegmentSuffix: string := ".ts"

  /** An outgoing HTTP request; `verb` is the HTTP method. */
  datatype Request = Request(url: string, verb: string, headers: seq<(string, string)>, body: Option<string>)

  const Modulus: int := 0x1_0000_0000

  /** Java's `31 * h + c` over the characters of `s`, kept as an unsigned 32-bit value. */
  function HashBits(s: string): (u: nat)
    ensures u < Modulus
  {
    if s == [] then 0
    else (31 * HashBits(s[..|s| - 1]) + s[|s| - 1] as int) % Modulus
  }

  /** Java's `String.hashCode`: the same value read as a signed 32-bit integer. */
  function HashCode(s: string): (h: int)
    ensures -0x8000_0000 <= h < 0x8000_0000
    ensures h % Modulus == HashBits(s)
  {
    var u := HashBits(s);
    if u >= 0x8000_0000 then u - Modulus else u
  }

  /** The predicate of `intercept`: which requests are rewritten at all. */
  predicate Rewrites(req: Request) {
    EndsWith(req.url, SegmentSuffix) && req.verb != Options && !Contains(req.url, Links.Blacklisted)
  }

  /** The extension object, reduced to its session table. */
  class HiAnime {
    /** Session ids keyed by the hash code of a stream URL; a key may map to null. */
    var sid: map<int, Option<string>>

    constructor ()
      ensures sid == map[]
      ensures forall url :: SidFor(url) == None
    {
      sid := map[];
    }

    /** `sid[url.hashCode()]`: a session id only when the key is present and not null. */
    function SidFor(url: string): (r: Option<string>)
      reads this
      ensures r.Some? <==> HashCode(url) in sid && sid[HashCode(url)].Some?
      ensures r.Some? ==> sid[HashCode(url)] == r
    {
      var key := HashCode(url);
      if key in sid then sid[key] else None
    }

    /**
     * `getVideoInterceptor(link).intercept`: the request passed on. Only a
     * rewritten request can change, and then only by an `SID` header at
     * the end, looked up by the stream link's URL (not the request's).
     */
    method Intercept(link: Links.Link, req: Request) returns (out: Request)
      ensures out.url == req.url && out.verb == req.verb && out.body == req.body
      ensures !Rewrites(req) ==> out == req
      ensures Rewrites(req) && SidFor(link.url).Some? ==>
        out.headers == req.headers + [("SID", SidFor(link.url).value)]
      ensures SidFor(link.url).None? ==> out == req
    {
      if EndsWith(req.url, SegmentSuffix) && req.verb != Options && !Contains(req.url, Links.Blacklisted) {
        var headers := req.headers;
        var key := HashCode(link.url);
        if key in sid && sid[key].Some? {
          headers := headers + [("SID", sid[key].value)];
        }
        out := req.(headers := headers);
      } else {
        out := req;
      }
    }
  }

  /**
   * The table is keyed by hash code, so two stream URLs with the same
   * hash code ("Aa" and "BB" in Java) share one session id.
   */
  lemma SidSharedOnHashCollision(h: HiAnime)
    ensures "Aa" != "BB" && h.SidFor("Aa") == h.SidFor("BB")
  {
    assert HashBits("Aa") == 2112 by {
      assert "Aa"[..1] == "A" && "A"[..0] == [];
    }
    assert HashBits("BB") == 2112 by {
      assert "BB"[..1] == "B" && "B"[..0] == [];
    }
  }
}
