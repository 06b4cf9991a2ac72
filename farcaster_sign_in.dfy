/**
 * The sign-in component (`FarcasterSignIn`): normalising the loosely shaped
 * profile objects ConnectKit may hand back, and deciding when the parent's
 * `onProfile` callback fires and with what.
 */
module FarcasterSignIn {
  import opened Wrappers
  import opened JsValues
  import opened Http
  import FarcasterProfile

  /** `normalize`'s result: `fid` is `undefined` or a string; the other two are whatever was found. */
  datatype Normalized = Normalized(fid: Option<string>, displayName: JsVal, pfpUrl: JsVal)

  /** The argument of one `onProfile` call. */
  datatype ProfileArgs = ProfileArgs(fid: string, displayName: JsVal, pfpUrl: JsVal)

  /** Where `normalize` looks for the fid, in order; a string profile is its own last candidate. */
  function FidCandidates(p: JsVal): seq<JsVal>
  {
    [Get(p, "fid"), GetPath(p, ["user", "fid"]), Get(p, "id"), GetPath(p, ["data", "fid"]),
     if p.Str? then p else Undefined]
  }

  /** Where `normalize` looks for the display name, in order. */
  function DisplayNameCandidates(p: JsVal): seq<JsVal>
  {
    [Get(p, "displayName"), Get(p, "username"), GetPath(p, ["user", "displayName"]), GetPath(p, ["user", "username"])]
  }

  /** Where `normalize` looks for the avatar URL, in order. */
  function PfpCandidates(p: JsVal): seq<JsVal>
  {
    [Get(p, "pfp_url"), Get(p, "avatarUrl"), GetPath(p, ["user", "pfp_url"]), GetPath(p, ["user", "avatarUrl"])]
  }

  /** `cs[0] || ... || cs[n-1] || ""`: the first truthy candidate, else the empty string. */
  function FirstOrEmpty(cs: seq<JsVal>): (v: JsVal)
    ensures forall i :: IsFirstTruthy(cs, i) ==> v == cs[i]
    ensures NoneTruthy(cs) ==> v == Str("")
  {
    var chain := cs + [Str("")];
    OrChainSpec(chain);
    forall i | IsFirstTruthy(cs, i) ensures IsFirstTruthy(chain, i) {
      assert chain[i] == cs[i];
    }
    OrChain(chain)
  }

  /**
   * `normalize`: `fid` is `String` of the first truthy fid candidate, and
   * `undefined` when there is none; `displayName` and `pfp_url` are their
   * first truthy candidates, else `""`.
   */
  function Normalize(p: JsVal): (n: Normalized)
    ensures n.fid.None? <==> NoneTruthy(FidCandidates(p))
    ensures forall i :: IsFirstTruthy(FidCandidates(p), i) ==> n.fid == Some(ToStr(FidCandidates(p)[i]))
    ensures forall i :: IsFirstTruthy(DisplayNameCandidates(p), i) ==> n.displayName == DisplayNameCandidates(p)[i]
    ensures NoneTruthy(DisplayNameCandidates(p)) ==> n.displayName == Str("")
    ensures forall i :: IsFirstTruthy(PfpCandidates(p), i) ==> n.pfpUrl == PfpCandidates(p)[i]
    ensures NoneTruthy(PfpCandidates(p)) ==> n.pfpUrl == Str("")
  {
    var fid := OrChain(FidCandidates(p));
    OrChainSpec(FidCandidates(p));
    Normalized(if Truthy(fid) then Some(ToStr(fid)) else None,
               FirstOrEmpty(DisplayNameCandidates(p)),
               FirstOrEmpty(PfpCandidates(p)))
  }

  /** A non-empty string is taken as the fid itself, with empty name and avatar. */
  lemma NormalizeString(s: string)
    requires s != ""
    ensures Normalize(Str(s)) == Normalized(Some(s), Str(""), Str(""))
  {
    assert IsFirstTruthy(FidCandidates(Str(s)), 4);
    assert NoneTruthy(DisplayNameCandidates(Str(s)));
    assert NoneTruthy(PfpCandidates(Str(s)));
  }

  /**
   * `handleProfile`: `onProfile` fires when the normalised fid is a
   * non-empty string (`!p.fid` also rejects `""`), with exactly the three
   * normalised fields.
   */
  function ProfileToDeliver(raw: JsVal): (a: Option<ProfileArgs>)
    ensures var n := Normalize(raw);
            a.Some? <==> n.fid.Some? && n.fid.value != ""
    ensures a.Some? ==> a.value == ProfileArgs(Normalize(raw).fid.value, Normalize(raw).displayName, Normalize(raw).pfpUrl)
  {
    var n := Normalize(raw);
    if n.fid.None? || n.fid.value == "" then None
    else Some(ProfileArgs(n.fid.value, n.displayName, n.pfpUrl))
  }

  /**
   * Whenever the first truthy fid candidate is not an array, `onProfile`
   * fires, with that candidate's string form; with no truthy candidate it
   * does not fire; a first candidate that is an array keeps it from firing
   * exactly when the array prints as `""`.
   */
  lemma DeliveredUnlessArrayFid(raw: JsVal)
    ensures NoneTruthy(FidCandidates(raw)) ==> ProfileToDeliver(raw).None?
    ensures forall i :: IsFirstTruthy(FidCandidates(raw), i) && !FidCandidates(raw)[i].Arr? ==>
              ProfileToDeliver(raw) == Some(ProfileArgs(ToStr(FidCandidates(raw)[i]),
                                                        Normalize(raw).displayName, Normalize(raw).pfpUrl))
    ensures forall i :: IsFirstTruthy(FidCandidates(raw), i) && FidCandidates(raw)[i].Arr? ==>
              (ProfileToDeliver(raw).None? <==> ToStr(FidCandidates(raw)[i]) == "")
  {
  }

  /** The lookup of `handleManual`: nothing usable (fetch threw, non-2xx reply, or a body that is not JSON), or the JSON body. */
  datatype Lookup = Unusable | Answered(status: int, data: JsVal)

  /** `res.ok` and then `data && data.fid`: the lookup's reply can be used as the profile. */
  predicate UsableLookup(lookup: Lookup) {
    lookup.Answered? && HttpOk(lookup.status) && Truthy(lookup.data) && Truthy(Get(lookup.data, "fid"))
  }

  /**
   * `handleManual`'s decision, given what `prompt` returned (`None` for
   * cancel) and the lookup: no call for an empty or cancelled input;
   * otherwise one call, with the looked-up profile when the reply is 2xx
   * and carries a truthy `fid`, and with the typed fid and empty name and
   * avatar in every other case.
   */
  function ManualProfile(input: Option<string>, lookup: Lookup): (a: Option<ProfileArgs>)
    ensures a.None? <==> input.None? || input.value == ""
    ensures a.Some? && UsableLookup(lookup) ==>
              a.value == ProfileArgs(ToStr(Get(lookup.data, "fid")),
                                         Or(Get(lookup.data, "displayName"), Str("")),
                                         Or(Get(lookup.data, "pfp_url"), Str("")))
    ensures a.Some? && !UsableLookup(lookup) ==>
              a.value == ProfileArgs(input.value, Str(""), Str(""))
  {
    if input.None? || input.value == "" then None
    else if UsableLookup(lookup) then
      var data := lookup.data;
      Some(ProfileArgs(ToStr(Get(data, "fid")), Or(Get(data, "displayName"), Str("")), Or(Get(data, "pfp_url"), Str(""))))
    else Some(ProfileArgs(input.value, Str(""), Str("")))
  }

  /**
   * Looked up against the app's own placeholder route, a typed fid `s` is
   * delivered unchanged, named `farcaster-<s>`, with the dicebear avatar.
   */
  lemma ManualLookupOfPlaceholder(s: string)
    requires s != ""
    ensures var r := FarcasterProfile.Handle(map["q" := Str(s)]);
            ManualProfile(Some(s), Answered(r.status, BodyJson(r.body)))
              == Some(ProfileArgs(s, Str(FarcasterProfile.NamePrefix + s), Str(FarcasterProfile.AvatarUrl(s))))
  {
    var query := map["q" := Str(s)];
    assert Property(query, "q") == Str(s);
    assert FarcasterProfile.QueryKey(query) == s;
  }

  /** What `ConnectKit.signIn()` or `ConnectKit.getProfile()` gave: a value, or a thrown error. */
  datatype KitReply = Returned(profile: JsVal) | Threw

  /**
   * The component's state: the `loading` and `connected` flags, and the
   * arguments of the `onProfile` calls made so far, in order.
   */
  class SignInWidget {
    var loading: bool
    var connected: bool
    var delivered: seq<ProfileArgs>

    constructor ()
      ensures !loading && !connected && delivered == []
    {
      loading, connected, delivered := false, false, [];
    }

    /** `handleProfile`: calls `onProfile` once or not at all, as `ProfileToDeliver` decides. */
    method HandleProfile(raw: JsVal)
      modifies this`delivered
      ensures delivered == old(delivered) + AsSeq(ProfileToDeliver(raw))
    {
      var a := ProfileToDeliver(raw);
      if a.Some? {
        delivered := delivered + [a.value];
      }
    }

    /**
     * `handleSignIn`: with ConnectKit available and a truthy profile, the
     * profile is handled and the widget is marked connected (even when no
     * fid was found); in every case `loading` ends false.
     */
    method HandleSignIn(kitAvailable: bool, reply: KitReply)
      modifies this
      ensures !loading
      ensures var signedIn := kitAvailable && reply.Returned? && Truthy(reply.profile);
              && connected == (old(connected) || signedIn)
              && delivered == old(delivered) + (if signedIn then AsSeq(ProfileToDeliver(reply.profile)) else [])
    {
      loading := true;
      if !kitAvailable {
        loading := false;
        return;
      }
      match reply {
        case Threw =>
        case Returned(profile) =>
          if !Truthy(profile) {
            loading := false;
            return;
          }
          HandleProfile(profile);
          connected := true;
      }
      loading := false;
    }

    /** `tryAuto` on mount: a truthy profile from `getProfile` is handled and marks the widget connected. */
    method AutoConnect(kitHasGetProfile: bool, reply: KitReply)
      modifies this`connected, this`delivered
      ensures var found := kitHasGetProfile && reply.Returned? && Truthy(reply.profile);
              && connected == (old(connected) || found)
              && delivered == old(delivered) + (if found then AsSeq(ProfileToDeliver(reply.profile)) else [])
    {
      if !kitHasGetProfile {
        return;
      }
      if reply.Returned? && Truthy(reply.profile) {
        HandleProfile(reply.profile);
        connected := true;
      }
    }

    /**
     * `handleManual`: an empty or cancelled prompt changes nothing;
     * otherwise `onProfile` is called exactly once, with `ManualProfile`'s
     * argument, and the widget ends connected and not loading.
     */
    method HandleManual(input: Option<string>, lookup: Lookup)
      modifies this
      ensures input.None? || input.value == "" ==>
                loading == old(loading) && connected == old(connected) && delivered == old(delivered)
      ensures input.Some? && input.value != "" ==>
                !loading && connected && delivered == old(delivered) + [ManualProfile(input, lookup).value]
    {
      if input.None? || input.value == "" {
        return;
      }
      var fid := input.value;
      loading := true;
      if lookup.Answered? && HttpOk(lookup.status) {
        var data := lookup.data;
        if Truthy(data) && Truthy(Get(data, "fid")) {
          delivered := delivered + [ProfileArgs(ToStr(Get(data, "fid")),
                                                Or(Get(data, "displayName"), Str("")),
                                                Or(Get(data, "pfp_url"), Str("")))];
          connected := true;
          loading := false;
          return;
        }
      }
      loading := false;
      delivered := delivered + [ProfileArgs(fid, Str(""), Str(""))];
      connected := true;
    }
  }
}
