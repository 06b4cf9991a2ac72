/**
 * The placeholder profile route (`/api/farcaster-profile`): turns the
 * query's `q` (or `fid`) into a profile whose name and avatar are derived
 * from it.
 */
module FarcasterProfile {
  import opened JsValues
  import opened Http

  const NamePrefix := "farcaster-"
  const AvatarSeedUrl := "https://api.dicebear.com/8.x/pixel-art/png?seed="

  /**
   * `(req.query.q || req.query.fid || "").toString()`: `q` when truthy,
   * else `fid` when truthy, else the empty string.
   */
  function QueryKey(query: map<string, JsVal>): (q: string)
    ensures Truthy(Property(query, "q")) ==> q == ToStr(Property(query, "q"))
    ensures !Truthy(Property(query, "q")) && Truthy(Property(query, "fid")) ==> q == ToStr(Property(query, "fid"))
    ensures !Truthy(Property(query, "q")) && !Truthy(Property(query, "fid")) ==> q == ""
  {
    ToStr(Or(Or(Property(query, "q"), Property(query, "fid")), Str("")))
  }

  /** The dicebear avatar URL seeded with the placeholder name. */
  function AvatarUrl(q: string): string {
    AvatarSeedUrl + NamePrefix + q
  }

  /**
   * `handler`: 400 with `missing q` exactly when the key is empty; otherwise
   * 200 with a profile whose fid is the key, whose name is `farcaster-<key>`
   * and whose avatar is seeded with that name.
   */
  function Handle(query: map<string, JsVal>): (r: Response)
    ensures r.status == 400 <==> QueryKey(query) == ""
    ensures r.status == 400 ==> r.body == ErrorBody("missing q")
    ensures r.status != 400 ==> r.status == 200 && r.body.ProfileBody?
    ensures r.status == 200 ==> r.body.fid == QueryKey(query)
    ensures r.status == 200 ==> r.body.displayName == NamePrefix + r.body.fid
    ensures r.status == 200 ==> r.body.pfpUrl == AvatarSeedUrl + r.body.displayName
  {
    var q := QueryKey(query);
    if q == "" then Response(400, ErrorBody("missing q"))
    else Response(200, ProfileBody(q, NamePrefix + q, AvatarUrl(q)))
  }

  /** A truthy `q` decides the response alone: `fid` is then never looked at. */
  lemma QueryTakesPrecedence(query: map<string, JsVal>, fid: JsVal)
    requires Truthy(Property(query, "q"))
    ensures Handle(query["fid" := fid]) == Handle(query)
  {
    assert Property(query["fid" := fid], "q") == Property(query, "q");
  }

  /** `?fid=` is the fallback key: with no truthy `q`, a non-empty string `fid` is echoed. */
  lemma FidFallback(query: map<string, JsVal>, s: string)
    requires !Truthy(Property(query, "q")) && s != ""
    ensures Handle(query["fid" := Str(s)]) == Response(200, ProfileBody(s, NamePrefix + s, AvatarUrl(s)))
  {
    assert Property(query["fid" := Str(s)], "q") == Property(query, "q");
  }
}
