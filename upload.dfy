/**
 * The asset-pinning route (`/api/upload`): validate the request, download
 * the image into `tmp/`, pin it to IPFS through Lighthouse, assign the
 * rarity and mood traits, write and pin the metadata record, choose a
 * gateway URL for each artifact, and clean up the temporary files.
 *
 * The network (download, upload, gateway probe) and `Math.random()` are
 * oracles: their results are inputs gathered in an `Environment`.
 */
module Upload {
  import opened Wrappers
  import opened Decimal
  import opened JsValues
  import opened Http
  import opened NodePath

  const PublicGateway := "https://ipfs.io/ipfs/"
  const LighthouseGateway := "https://gateway.lighthouse.storage/ipfs/"
  const IpfsScheme := "ipfs://"
  const TmpDir := "tmp"

  const MissingInput := "missing imageUrl or fid"
  const ImageCidMissing := "Failed to obtain image CID from Lighthouse response"
  const MetaCidMissing := "Failed to obtain metadata CID from Lighthouse response"

  // ---------------------------------------------------------------------
  // Rarity and mood

  datatype Rarity = Mythic | Legendary | Epic | Rare | Common

  function RarityName(t: Rarity): string {
    match t
    case Mythic => "Mythic"
    case Legendary => "Legendary"
    case Epic => "Epic"
    case Rare => "Rare"
    case Common => "Common"
  }

  const RarityNames: set<string> := {"Mythic", "Legendary", "Epic", "Rare", "Common"}

  /** Inclusive lower bound of the draws that give tier `t`. */
  function TierLow(t: Rarity): real {
    match t
    case Mythic => 0.0
    case Legendary => 0.005
    case Epic => 0.025
    case Rare => 0.075
    case Common => 0.175
  }

  /** Exclusive upper bound of the draws that give tier `t`. */
  function TierHigh(t: Rarity): real {
    match t
    case Mythic => 0.005
    case Legendary => 0.025
    case Epic => 0.075
    case Rare => 0.175
    case Common => 1.0
  }

  /** How rare a tier is: Common is 0, Mythic is 4. */
  function Scarcity(t: Rarity): nat {
    match t
    case Common => 0
    case Rare => 1
    case Epic => 2
    case Legendary => 3
    case Mythic => 4
  }

  /**
   * `pickRarity` with its draw `r` of `Math.random()` made a parameter:
   * the tier whose half-open interval [TierLow, TierHigh) holds `r`, and no
   * other tier's interval holds it.
   */
  function PickRarity(r: real): (t: Rarity)
    ensures 0.0 <= r < 1.0 ==> TierLow(t) <= r < TierHigh(t)
    ensures forall u :: TierLow(u) <= r < TierHigh(u) ==> u == t
  {
    if r < 0.005 then Mythic
    else if r < 0.025 then Legendary
    else if r < 0.075 then Epic
    else if r < 0.175 then Rare
    else Common
  }

  /** A smaller draw never gives a more common tier. */
  lemma RarerForSmallerDraw(r1: real, r2: real)
    requires r1 <= r2
    ensures Scarcity(PickRarity(r1)) >= Scarcity(PickRarity(r2))
  {
  }

  /** The tests are strict: a draw exactly on a threshold gives the more common tier. */
  lemma ThresholdDraws()
    ensures PickRarity(0.005) == Legendary && PickRarity(0.025) == Epic
    ensures PickRarity(0.075) == Rare && PickRarity(0.175) == Common
  {
  }

  const Moods: seq<string> := ["Calm", "Happy", "Neutral", "Serious", "Playful"]

  /** `Math.floor(r * moods.length)`: always a valid index; index k is drawn exactly for r in [k/5, (k+1)/5). */
  function MoodIndex(r: real): (k: int)
    requires 0.0 <= r < 1.0
    ensures 0 <= k < |Moods|
    ensures k as real / 5.0 <= r < (k + 1) as real / 5.0
  {
    (r * |Moods| as real).Floor
  }

  /** `pickMood` with its draw made a parameter: one of the five moods. */
  function PickMood(r: real): (m: string)
    requires 0.0 <= r < 1.0
    ensures m in Moods
    ensures forall k :: 0 <= k < |Moods| && k as real / 5.0 <= r < (k + 1) as real / 5.0 ==> m == Moods[k]
  {
    Moods[MoodIndex(r)]
  }

  /** `clientRarity || pickRarity()`: the client's value when truthy, else a drawn tier name. */
  function RarityTrait(client: JsVal, r: real): (v: JsVal)
    ensures Truthy(v)
    ensures Truthy(client) ==> v == client
    ensures !Truthy(client) ==> v.Str? && v.s in RarityNames && v.s == RarityName(PickRarity(r))
  {
    Or(client, Str(RarityName(PickRarity(r))))
  }

  /** `clientMood || pickMood()`: the client's value when truthy, else a drawn mood. */
  function MoodTrait(client: JsVal, r: real): (v: JsVal)
    requires 0.0 <= r < 1.0
    ensures Truthy(v)
    ensures Truthy(client) ==> v == client
    ensures !Truthy(client) ==> v.Str? && v.s in Moods && v.s == PickMood(r)
  {
    Or(client, Str(PickMood(r)))
  }

  // ---------------------------------------------------------------------
  // Content ids, locators and gateways

  /** The four places Lighthouse's response may carry the content id, in the order they are tried. */
  function CidCandidates(resp: JsVal): seq<JsVal>
  {
    [GetPath(resp, ["data", "cid"]), GetPath(resp, ["data", "Hash"]), Get(resp, "cid"), Get(resp, "Hash")]
  }

  /**
   * `resp?.data?.cid || resp?.data?.Hash || resp?.cid || resp?.Hash`: the
   * first truthy candidate; falsy exactly when no candidate is truthy.
   */
  function ExtractCid(resp: JsVal): (cid: JsVal)
    ensures forall i :: IsFirstTruthy(CidCandidates(resp), i) ==> cid == CidCandidates(resp)[i]
    ensures Truthy(cid) <==> !NoneTruthy(CidCandidates(resp))
  {
    OrChainSpec(CidCandidates(resp));
    OrChain(CidCandidates(resp))
  }

  /** `data.cid` wins over every other place, and `data.Hash` over the top-level fields. */
  lemma CidPrecedence(resp: JsVal)
    ensures Truthy(GetPath(resp, ["data", "cid"])) ==> ExtractCid(resp) == GetPath(resp, ["data", "cid"])
    ensures (!Truthy(GetPath(resp, ["data", "cid"])) && Truthy(GetPath(resp, ["data", "Hash"])))
            ==> ExtractCid(resp) == GetPath(resp, ["data", "Hash"])
  {
    assert IsFirstTruthy(CidCandidates(resp), 0) || !Truthy(CidCandidates(resp)[0]);
    if !Truthy(CidCandidates(resp)[0]) && Truthy(CidCandidates(resp)[1]) {
      assert IsFirstTruthy(CidCandidates(resp), 1);
    }
  }

  function ImageFilename(fid: JsVal): string { "ghost-" + ToStr(fid) + ".png" }

  function MetaFilename(fid: JsVal): string { "metadata-" + ToStr(fid) + ".json" }

  /** `tmp/<filename>`: the file `filename` directly inside the temporary directory. */
  function TmpPath(filename: string): string { TmpDir + "/" + filename }

  /** In `d + p + s + q`, the part `s` is fixed by the rest. */
  lemma {:induction false} InfixDetermined(d: string, p: string, s1: string, s2: string, q: string)
    requires d + ((p + s1) + q) == d + ((p + s2) + q)
    ensures s1 == s2
  {
    var t1, t2 := d + ((p + s1) + q), d + ((p + s2) + q);
    assert |s1| == |s2|;
    forall k | 0 <= k < |s1| ensures s1[k] == s2[k] {
      assert t1[|d| + |p| + k] == s1[k];
      assert t2[|d| + |p| + k] == s2[k];
    }
  }

  /**
   * The temporary file names are apart: an image name is never a metadata
   * name, and two fids get the same image or metadata name only when they
   * print the same.
   */
  lemma TmpPathsDistinct(f1: JsVal, f2: JsVal)
    ensures TmpPath(ImageFilename(f1)) != TmpPath(MetaFilename(f2))
    ensures TmpPath(ImageFilename(f1)) == TmpPath(ImageFilename(f2)) ==> ToStr(f1) == ToStr(f2)
    ensures TmpPath(MetaFilename(f1)) == TmpPath(MetaFilename(f2)) ==> ToStr(f1) == ToStr(f2)
  {
    assert TmpPath(ImageFilename(f1))[4] == 'g';
    assert TmpPath(MetaFilename(f2))[4] == 'm';
    if TmpPath(ImageFilename(f1)) == TmpPath(ImageFilename(f2)) {
      InfixDetermined(TmpDir + "/", "ghost-", ToStr(f1), ToStr(f2), ".png");
    }
    if TmpPath(MetaFilename(f1)) == TmpPath(MetaFilename(f2)) {
      InfixDetermined(TmpDir + "/", "metadata-", ToStr(f1), ToStr(f2), ".json");
    }
  }

  /** The path `path.join(process.cwd(), "tmp", filename)` names, relative to the working directory. */
  function JoinedTmpPath(filename: string): string {
    JoinPath([TmpDir, filename])
  }

  /** The temporary file names of a fid that prints without `/` are plain names. */
  lemma FilenamesPlain(fid: JsVal)
    requires '/' !in ToStr(fid)
    ensures PlainName(ImageFilename(fid)) && PlainName(MetaFilename(fid))
  {
    assert ImageFilename(fid)[0] == 'g' && |ImageFilename(fid)| > 2;
    assert MetaFilename(fid)[0] == 'm' && |MetaFilename(fid)| > 2;
  }

  /** For a fid that prints without `/`, `path.join` gives exactly the plain `tmp/<name>` paths. */
  lemma TmpPathsMatchJoin(fid: JsVal)
    requires '/' !in ToStr(fid)
    ensures JoinedTmpPath(ImageFilename(fid)) == TmpPath(ImageFilename(fid))
    ensures JoinedTmpPath(MetaFilename(fid)) == TmpPath(MetaFilename(fid))
  {
    FilenamesPlain(fid);
    JoinPlainNames(TmpDir, ImageFilename(fid));
    JoinPlainNames(TmpDir, MetaFilename(fid));
  }

  /** The image name of fid `"1/../ghost-2"` climbs back out of its own entry. */
  lemma TraversingImageName(fid: JsVal)
    requires fid == Str("1/../ghost-2")
    ensures ImageFilename(fid) == "ghost-1" + "/../" + "ghost-2.png"
  {
  }

  /** The metadata name of fid `"/../../package"` climbs out of `tmp/`. */
  lemma TraversingMetaName(fid: JsVal)
    requires fid == Str("/../../package")
    ensures MetaFilename(fid) == "metadata-" + "/../../" + "package.json"
  {
  }

  /**
   * A fid holding `..` segments escapes its own temporary names: fid
   * `"1/../ghost-2"` writes and removes fid `"2"`'s image file, which the
   * plain `tmp/<name>` paths keep apart.
   */
  lemma ImagePathTraversal(fid: JsVal, other: JsVal)
    requires fid == Str("1/../ghost-2") && other == Str("2")
    ensures JoinedTmpPath(ImageFilename(fid)) == JoinedTmpPath(ImageFilename(other))
    ensures TmpPath(ImageFilename(fid)) != TmpPath(ImageFilename(other))
  {
    TmpPathsDistinct(fid, other);
    TraversingImageName(fid);
    JoinParentCancels(TmpDir, "ghost-1", "ghost-2.png");
    TmpPathsMatchJoin(other);
  }

  /**
   * A fid holding `..` segments reaches outside `tmp/`: fid
   * `"/../../package"` writes and removes `package.json` in the working
   * directory, a path the plain `tmp/<name>` form does not name.
   */
  lemma MetaPathTraversal(fid: JsVal)
    requires fid == Str("/../../package")
    ensures JoinedTmpPath(MetaFilename(fid)) == "package.json"
    ensures TmpPath(MetaFilename(fid)) != JoinedTmpPath(MetaFilename(fid))
  {
    TraversingMetaName(fid);
    JoinParentEscapes(TmpDir, "metadata-", "package.json");
    assert |TmpPath(MetaFilename(fid))| > |"package.json"|;
  }

  /**
   * With the fix of refusing a fid whose `String` holds `/`, the paths the
   * route really writes keep every request's files apart: an image file is
   * never a metadata file, and two fids share a file only when they print
   * the same.
   */
  lemma JoinedTmpPathsDistinct(f1: JsVal, f2: JsVal)
    requires '/' !in ToStr(f1) && '/' !in ToStr(f2)
    ensures JoinedTmpPath(ImageFilename(f1)) != JoinedTmpPath(MetaFilename(f2))
    ensures JoinedTmpPath(ImageFilename(f1)) == JoinedTmpPath(ImageFilename(f2)) ==> ToStr(f1) == ToStr(f2)
    ensures JoinedTmpPath(MetaFilename(f1)) == JoinedTmpPath(MetaFilename(f2)) ==> ToStr(f1) == ToStr(f2)
  {
    TmpPathsMatchJoin(f1);
    TmpPathsMatchJoin(f2);
    TmpPathsDistinct(f1, f2);
  }

  /** The `<cid>/<filename>` path every locator of an artifact ends in. */
  function ContentPath(cid: string, filename: string): string {
    cid + "/" + filename
  }

  /** The canonical content-addressed locator `ipfs://<cid>/<filename>`. */
  function IpfsUri(cid: string, filename: string): string {
    IpfsScheme + ContentPath(cid, filename)
  }

  /** The public-gateway URL that `checkPublicGateway` sends its HEAD request to. */
  function ProbeUrl(cid: string, filename: string): string {
    PublicGateway + ContentPath(cid, filename)
  }

  /**
   * The gateway URL handed back for an artifact: exactly the probed public
   * URL when the probe reported it reachable, the Lighthouse URL otherwise.
   */
  function GatewayUrl(publicOk: bool, cid: string, filename: string): (u: string)
    ensures publicOk ==> u == ProbeUrl(cid, filename)
    ensures !publicOk ==> u == LighthouseGateway + ContentPath(cid, filename)
  {
    if publicOk then PublicGateway + ContentPath(cid, filename)
    else LighthouseGateway + ContentPath(cid, filename)
  }

  /** A gateway URL is its gateway's host prefix followed by the path of the canonical locator. */
  lemma GatewayMatchesLocator(publicOk: bool, cid: string, filename: string)
    ensures var u, host := GatewayUrl(publicOk, cid, filename), if publicOk then PublicGateway else LighthouseGateway;
            |host| <= |u| && u[..|host|] == host && u[|host|..] == IpfsUri(cid, filename)[|IpfsScheme|..]
  {
    var u, host := GatewayUrl(publicOk, cid, filename), if publicOk then PublicGateway else LighthouseGateway;
    assert u == host + ContentPath(cid, filename);
    assert IpfsUri(cid, filename)[|IpfsScheme|..] == ContentPath(cid, filename);
  }

  /** Splits an `ipfs://<cid>/<path>` locator into its content id and path. */
  function ParseIpfsUri(u: string): Option<(string, string)> {
    if |u| >= |IpfsScheme| && u[..|IpfsScheme|] == IpfsScheme then
      var rest := u[|IpfsScheme|..];
      var k := IndexOfSlash(rest);
      if 0 < k < |rest| then Some((rest[..k], rest[k + 1..])) else None
    else None
  }

  /** A canonical locator names its content id and filename unambiguously. */
  lemma IpfsUriRoundTrip(cid: string, filename: string)
    requires cid != [] && '/' !in cid
    ensures ParseIpfsUri(IpfsUri(cid, filename)) == Some((cid, filename))
  {
    var u := IpfsUri(cid, filename);
    var rest := u[|IpfsScheme|..];
    assert rest == ContentPath(cid, filename);
    assert rest[|cid|] == '/';
    forall j | 0 <= j < |cid| ensures rest[j] != '/' {
      assert rest[j] == cid[j];
    }
    assert IndexOfSlash(rest) == |cid|;
    assert rest[..|cid|] == cid;
    assert rest[|cid| + 1..] == filename;
  }

  // ---------------------------------------------------------------------
  // The metadata record

  datatype Attribute = Attribute(traitType: string, value: JsVal)

  datatype Metadata = Metadata(name: string, description: string, image: string, attributes: seq<Attribute>)

  const TraitOrder: seq<string> := ["FID", "Style", "Rarity", "Mood"]

  /**
   * The metadata record: its name, description and FID trait all carry
   * `String(fid)`, its image is the canonical image locator, and it has
   * exactly four traits in the order FID, Style, Rarity, Mood.
   */
  function BuildMetadata(fid: JsVal, imageUri: string, rarity: JsVal, mood: JsVal): (m: Metadata)
    ensures |m.attributes| == |TraitOrder|
    ensures forall i :: 0 <= i < |TraitOrder| ==> m.attributes[i].traitType == TraitOrder[i]
    ensures m.attributes[0].value == Str(ToStr(fid))
    ensures m.name == "Fid Ghost #" + m.attributes[0].value.s
    ensures m.description == "Fid Ghost for Farcaster " + m.attributes[0].value.s
    ensures m.image == imageUri
    ensures m.attributes[1].value == Str("Ghost")
    ensures m.attributes[2].value == rarity && m.attributes[3].value == mood
  {
    var f := ToStr(fid);
    Metadata("Fid Ghost #" + f, "Fid Ghost for Farcaster " + f, imageUri,
             [Attribute("FID", Str(f)), Attribute("Style", Str("Ghost")),
              Attribute("Rarity", rarity), Attribute("Mood", mood)])
  }

  // ---------------------------------------------------------------------
  // Oracles and observable effects

  /** What `fetch(imageUrl)` gives: a response with its status and bytes, or a thrown error. */
  datatype Download = Fetched(status: int, bytes: seq<bv8>) | FetchThrew(message: string)

  /** What `lighthouse.upload` gives: a response of any shape, or a thrown error. */
  datatype UploadResult = Uploaded(response: JsVal) | UploadThrew(message: string)

  /** What the HEAD request of `checkPublicGateway` gives: a status, or a thrown error or timeout. */
  datatype Probe = ProbeAnswered(status: int) | ProbeThrew

  /** The results every outside call of one request would give, and the two random draws. */
  datatype Environment = Environment(
    download: Download,
    imageUpload: UploadResult,
    imageProbe: Probe,
    metaUpload: UploadResult,
    metaProbe: Probe,
    rarityDraw: real,
    moodDraw: real)

  /** An outbound call made by the route. */
  datatype Call = DownloadCall(url: string) | UploadCall(path: string, content: FileContent) | ProbeCall(url: string)

  /** The content of a file under `tmp/`. */
  datatype FileContent = ImageBytes(bytes: seq<bv8>) | MetadataJson(record: Metadata)

  /** `checkPublicGateway`'s answer: reachable only on a 2xx reply; a thrown error counts as unreachable. */
  function Reachable(p: Probe): (ok: bool)
    ensures ok <==> p.ProbeAnswered? && HttpOk(p.status)
  {
    match p
    case ProbeAnswered(status) => HttpOk(status)
    case ProbeThrew => false
  }

  /** The message `downloadToTemp` throws on a non-2xx reply. */
  function DownloadFailure(url: string, status: int): string {
    "Failed to download " + url + " - " + IntToString(status)
  }

  // ---------------------------------------------------------------------
  // The route as a function of its inputs

  /** What one request does: its response, the files left in `tmp/`, and the outbound calls it made. */
  datatype Outcome = Outcome(response: Response, tmp: map<string, FileContent>, made: seq<Call>)

  /** The inputs under which the route answers 200. */
  predicate Pinned(body: map<string, JsVal>, env: Environment) {
    Truthy(Property(body, "imageUrl")) && Truthy(Property(body, "fid"))
    && env.download.Fetched? && HttpOk(env.download.status)
    && env.imageUpload.Uploaded? && Truthy(ExtractCid(env.imageUpload.response))
    && env.metaUpload.Uploaded? && Truthy(ExtractCid(env.metaUpload.response))
  }

  /**
   * The route once the image is pinned under `imageCid`, from the content
   * `tmp1` of `tmp/` holding the image: probe the image's public URL, write
   * and pin the metadata record, probe the metadata's public URL, clean up.
   * The calls are those made from this point on.
   */
  function PinMetadata(body: map<string, JsVal>, env: Environment, imageCid: string,
                       tmp1: map<string, FileContent>): (o: Outcome)
    requires 0.0 <= env.moodDraw < 1.0
    ensures o.response.status == 200 <==> env.metaUpload.Uploaded? && Truthy(ExtractCid(env.metaUpload.response))
    ensures o.response.status in {200, 500}
  {
    var fid := Property(body, "fid");
    var imageFile, metaFile := ImageFilename(fid), MetaFilename(fid);
    var imagePath, metaPath := TmpPath(imageFile), TmpPath(metaFile);
    var imageIpfs := IpfsUri(imageCid, imageFile);
    var imageGateway := GatewayUrl(Reachable(env.imageProbe), imageCid, imageFile);
    var metadata := BuildMetadata(fid, imageIpfs,
                                  RarityTrait(Property(body, "rarity"), env.rarityDraw),
                                  MoodTrait(Property(body, "mood"), env.moodDraw));
    var tmp2 := tmp1[metaPath := MetadataJson(metadata)];
    var made := [ProbeCall(ProbeUrl(imageCid, imageFile)), UploadCall(metaPath, MetadataJson(metadata))];
    match env.metaUpload
    case UploadThrew(msg) => Outcome(ServerError(msg), tmp2, made)
    case Uploaded(metaResp) =>
      var metaCidVal := ExtractCid(metaResp);
      if !Truthy(metaCidVal) then
        Outcome(ServerError(MetaCidMissing), tmp2 - {imagePath, metaPath}, made)
      else
        var metaCid := ToStr(metaCidVal);
        var pinned := PinnedBody(IpfsUri(metaCid, metaFile),
                                 GatewayUrl(Reachable(env.metaProbe), metaCid, metaFile),
                                 imageIpfs, imageGateway);
        Outcome(Response(200, pinned), tmp2 - {imagePath, metaPath},
                made + [ProbeCall(ProbeUrl(metaCid, metaFile))])
  }

  /**
   * The route from request body, oracle results and the previous content
   * of `tmp/` to its outcome. It answers 400 exactly on a falsy `imageUrl`
   * or `fid`, 200 exactly when every step succeeds, and 500 otherwise.
   */
  function Pin(body: map<string, JsVal>, env: Environment, tmp0: map<string, FileContent>): (o: Outcome)
    requires 0.0 <= env.moodDraw < 1.0
    ensures o.response.status == 400 <==> !Truthy(Property(body, "imageUrl")) || !Truthy(Property(body, "fid"))
    ensures o.response.status == 200 <==> Pinned(body, env)
    ensures o.response.status in {200, 400, 500}
  {
    var imageUrl, fid := Property(body, "imageUrl"), Property(body, "fid");
    if !Truthy(imageUrl) || !Truthy(fid) then
      Outcome(Response(400, ErrorBody(MissingInput)), tmp0, [])
    else
      var url, imageFile, metaFile := ToStr(imageUrl), ImageFilename(fid), MetaFilename(fid);
      var imagePath, metaPath := TmpPath(imageFile), TmpPath(metaFile);
      match env.download
      case FetchThrew(msg) => Outcome(ServerError(msg), tmp0, [DownloadCall(url)])
      case Fetched(status, bytes) =>
        if !HttpOk(status) then
          Outcome(ServerError(DownloadFailure(url, status)), tmp0, [DownloadCall(url)])
        else
          var tmp1 := tmp0[imagePath := ImageBytes(bytes)];
          var made1 := [DownloadCall(url), UploadCall(imagePath, ImageBytes(bytes))];
          match env.imageUpload
          case UploadThrew(msg) => Outcome(ServerError(msg), tmp1, made1)
          case Uploaded(imageResp) =>
            var imageCidVal := ExtractCid(imageResp);
            if !Truthy(imageCidVal) then
              Outcome(ServerError(ImageCidMissing), tmp1 - {imagePath}, made1)
            else
              var o := PinMetadata(body, env, ToStr(imageCidVal), tmp1);
              Outcome(o.response, o.tmp, made1 + o.made)
  }

  // ---------------------------------------------------------------------
  // What the route promises, for every input

  /** A falsy `imageUrl` or `fid` gives 400 before any download, upload or file write. */
  lemma MissingInputRejected(body: map<string, JsVal>, env: Environment, tmp0: map<string, FileContent>)
    requires 0.0 <= env.moodDraw < 1.0
    requires !Truthy(Property(body, "imageUrl")) || !Truthy(Property(body, "fid"))
    ensures Pin(body, env, tmp0) == Outcome(Response(400, ErrorBody(MissingInput)), tmp0, [])
  {
  }

  /** A failed download gives 500 with the error's message; nothing is written and nothing uploaded. */
  lemma DownloadFailureReported(body: map<string, JsVal>, env: Environment, tmp0: map<string, FileContent>)
    requires 0.0 <= env.moodDraw < 1.0
    requires Truthy(Property(body, "imageUrl")) && Truthy(Property(body, "fid"))
    requires env.download.FetchThrew? || !HttpOk(env.download.status)
    ensures var o, url := Pin(body, env, tmp0), ToStr(Property(body, "imageUrl"));
            o.tmp == tmp0 && o.made == [DownloadCall(url)]
            && o.response == ServerError(match env.download
                                         case FetchThrew(m) => m
                                         case Fetched(status, _) => DownloadFailure(url, status))
  {
  }

  /**
   * No image content id: 500 with the image message; the image's temporary
   * file is removed, and the metadata file is neither written nor uploaded.
   */
  lemma ImageCidFailureCleansUp(body: map<string, JsVal>, env: Environment, tmp0: map<string, FileContent>)
    requires 0.0 <= env.moodDraw < 1.0
    requires Truthy(Property(body, "imageUrl")) && Truthy(Property(body, "fid"))
    requires env.download.Fetched? && HttpOk(env.download.status)
    requires env.imageUpload.Uploaded? && !Truthy(ExtractCid(env.imageUpload.response))
    ensures var o, fid := Pin(body, env, tmp0), Property(body, "fid");
            var imagePath, metaPath := TmpPath(ImageFilename(fid)), TmpPath(MetaFilename(fid));
            && o.response == ServerError(ImageCidMissing)
            && o.tmp == tmp0 - {imagePath}
            && imagePath !in o.tmp
            && (metaPath in o.tmp <==> metaPath in tmp0)
            && (metaPath in tmp0 ==> o.tmp[metaPath] == tmp0[metaPath])
            && |o.made| == 2 && o.made[1] == UploadCall(imagePath, ImageBytes(env.download.bytes))
  {
    TmpPathsDistinct(Property(body, "fid"), Property(body, "fid"));
  }

  /**
   * No metadata content id: 500 with the metadata message, and both
   * temporary files are removed.
   */
  lemma MetaCidFailureCleansUp(body: map<string, JsVal>, env: Environment, tmp0: map<string, FileContent>)
    requires 0.0 <= env.moodDraw < 1.0
    requires Truthy(Property(body, "imageUrl")) && Truthy(Property(body, "fid"))
    requires env.download.Fetched? && HttpOk(env.download.status)
    requires env.imageUpload.Uploaded? && Truthy(ExtractCid(env.imageUpload.response))
    requires env.metaUpload.Uploaded? && !Truthy(ExtractCid(env.metaUpload.response))
    ensures var o, fid := Pin(body, env, tmp0), Property(body, "fid");
            var imagePath, metaPath := TmpPath(ImageFilename(fid)), TmpPath(MetaFilename(fid));
            && o.response == ServerError(MetaCidMissing)
            && o.tmp == tmp0 - {imagePath, metaPath}
            && imagePath !in o.tmp && metaPath !in o.tmp
            && |o.made| == 4 && o.made[3].UploadCall? && o.made[3].path == metaPath
  {
  }

  /**
   * As written, an exception thrown by `lighthouse.upload` skips every
   * `unlinkSync`: the files written so far stay in `tmp/`.
   */
  lemma UploadExceptionKeepsTempFiles(body: map<string, JsVal>, env: Environment, tmp0: map<string, FileContent>)
    requires 0.0 <= env.moodDraw < 1.0
    requires Truthy(Property(body, "imageUrl")) && Truthy(Property(body, "fid"))
    requires env.download.Fetched? && HttpOk(env.download.status)
    requires env.imageUpload.UploadThrew?
             || (Truthy(ExtractCid(env.imageUpload.response)) && env.metaUpload.UploadThrew?)
    ensures var o, fid := Pin(body, env, tmp0), Property(body, "fid");
            && o.response.status == 500
            && TmpPath(ImageFilename(fid)) in o.tmp
            && (env.imageUpload.Uploaded? ==> TmpPath(MetaFilename(fid)) in o.tmp)
  {
  }

  /**
   * Once the image is pinned, the metadata record uploaded is the one built
   * from `fid`, the canonical image locator and the two traits; the
   * client's `displayName` plays no part in it.
   */
  lemma MetadataRecordUploaded(body: map<string, JsVal>, env: Environment, tmp0: map<string, FileContent>)
    requires 0.0 <= env.moodDraw < 1.0
    requires Truthy(Property(body, "imageUrl")) && Truthy(Property(body, "fid"))
    requires env.download.Fetched? && HttpOk(env.download.status)
    requires env.imageUpload.Uploaded? && Truthy(ExtractCid(env.imageUpload.response))
    ensures var o, fid := Pin(body, env, tmp0), Property(body, "fid");
            var imageCid := ToStr(ExtractCid(env.imageUpload.response));
            var m := BuildMetadata(fid, IpfsUri(imageCid, ImageFilename(fid)),
                                   RarityTrait(Property(body, "rarity"), env.rarityDraw),
                                   MoodTrait(Property(body, "mood"), env.moodDraw));
            |o.made| >= 4
            && o.made[2] == ProbeCall(ProbeUrl(imageCid, ImageFilename(fid)))
            && o.made[3] == UploadCall(TmpPath(MetaFilename(fid)), MetadataJson(m))
  {
  }

  /**
   * On success: 200 with the two canonical locators and the two gateway
   * URLs, each gateway chosen by its own probe; neither temporary file
   * remains; the two probes are the last calls made.
   */
  lemma SuccessfulPin(body: map<string, JsVal>, env: Environment, tmp0: map<string, FileContent>)
    requires 0.0 <= env.moodDraw < 1.0
    requires Pinned(body, env)
    ensures var o, fid := Pin(body, env, tmp0), Property(body, "fid");
            var imageCid := ToStr(ExtractCid(env.imageUpload.response));
            var metaCid := ToStr(ExtractCid(env.metaUpload.response));
            var imageFile, metaFile := ImageFilename(fid), MetaFilename(fid);
            && o.response.status == 200
            && o.response.body.PinnedBody?
            && o.response.body.imageIpfs == IpfsUri(imageCid, imageFile)
            && o.response.body.metadataUrl == IpfsUri(metaCid, metaFile)
            && o.response.body.imageGateway == GatewayUrl(Reachable(env.imageProbe), imageCid, imageFile)
            && o.response.body.metadataGateway == GatewayUrl(Reachable(env.metaProbe), metaCid, metaFile)
            && o.tmp == tmp0 - {TmpPath(imageFile), TmpPath(metaFile)}
            && TmpPath(imageFile) !in o.tmp && TmpPath(metaFile) !in o.tmp
            && |o.made| == 5
            && o.made[2] == ProbeCall(ProbeUrl(imageCid, imageFile))
            && o.made[4] == ProbeCall(ProbeUrl(metaCid, metaFile))
  {
  }

  /**
   * The probes decide only the gateway URLs: the status, the canonical
   * locators and the files left behind are the same whatever they answer.
   */
  lemma CanonicalUrisIgnoreProbes(body: map<string, JsVal>, env: Environment, p1: Probe, p2: Probe,
                                  tmp0: map<string, FileContent>)
    requires 0.0 <= env.moodDraw < 1.0
    ensures var o, o' := Pin(body, env, tmp0), Pin(body, env.(imageProbe := p1, metaProbe := p2), tmp0);
            && o.response.status == o'.response.status
            && o.tmp == o'.tmp
            && (o.response.status == 200 ==>
                  o.response.body.imageIpfs == o'.response.body.imageIpfs
                  && o.response.body.metadataUrl == o'.response.body.metadataUrl)
  {
  }

  /** The `displayName` of the request changes nothing the route does. */
  lemma DisplayNameIgnored(body: map<string, JsVal>, env: Environment, name: JsVal,
                           tmp0: map<string, FileContent>)
    requires 0.0 <= env.moodDraw < 1.0
    ensures Pin(body["displayName" := name], env, tmp0) == Pin(body - {"displayName"}, env, tmp0)
  {
    var b1, b2 := body["displayName" := name], body - {"displayName"};
    assert forall k :: k in {"imageUrl", "fid", "rarity", "mood"} ==> Property(b1, k) == Property(b2, k);
  }

  /** The image locator and gateway URL of the scenario below. */
  lemma ScenarioImageLocators(cid: string, file: string)
    requires cid == "bafyImg" && file == "ghost-42.png"
    ensures IpfsUri(cid, file) == "ipfs://bafyImg/ghost-42.png"
    ensures GatewayUrl(false, cid, file) == "https://gateway.lighthouse.storage/ipfs/bafyImg/ghost-42.png"
  {
    assert ContentPath(cid, file) == "bafyImg/ghost-42.png";
  }

  /** The metadata locator and gateway URL of the scenario below. */
  lemma ScenarioMetaLocators(cid: string, file: string)
    requires cid == "bafyMeta" && file == "metadata-42.json"
    ensures IpfsUri(cid, file) == "ipfs://bafyMeta/metadata-42.json"
    ensures GatewayUrl(false, cid, file) == "https://gateway.lighthouse.storage/ipfs/bafyMeta/metadata-42.json"
  {
    assert ContentPath(cid, file) == "bafyMeta/metadata-42.json";
  }

  /** The content ids Lighthouse answers in the scenario below. */
  lemma ScenarioCids(imageResp: JsVal, metaResp: JsVal)
    requires imageResp == Obj(map["data" := Obj(map["cid" := Str("bafyImg")])])
    requires metaResp == Obj(map["data" := Obj(map["cid" := Str("bafyMeta")])])
    ensures Truthy(ExtractCid(imageResp)) && ToStr(ExtractCid(imageResp)) == "bafyImg"
    ensures Truthy(ExtractCid(metaResp)) && ToStr(ExtractCid(metaResp)) == "bafyMeta"
  {
    assert GetPath(imageResp, ["data", "cid"]) == Str("bafyImg");
    assert GetPath(metaResp, ["data", "cid"]) == Str("bafyMeta");
    CidPrecedence(imageResp);
    CidPrecedence(metaResp);
  }

  /** The scenario: fid "42", Lighthouse answering `data.cid`, the public gateway unreachable. */
  lemma LighthouseFallbackScenario(body: map<string, JsVal>, env: Environment)
    requires body == map["imageUrl" := Str("https://x/y.png"), "fid" := Str("42")]
    requires env.download.Fetched? && env.download.status == 200
    requires env.imageUpload == Uploaded(Obj(map["data" := Obj(map["cid" := Str("bafyImg")])]))
    requires env.metaUpload == Uploaded(Obj(map["data" := Obj(map["cid" := Str("bafyMeta")])]))
    requires !Reachable(env.imageProbe) && !Reachable(env.metaProbe)
    requires 0.0 <= env.moodDraw < 1.0
    ensures Pin(body, env, map[]).response
              == Response(200, PinnedBody("ipfs://bafyMeta/metadata-42.json",
                                          "https://gateway.lighthouse.storage/ipfs/bafyMeta/metadata-42.json",
                                          "ipfs://bafyImg/ghost-42.png",
                                          "https://gateway.lighthouse.storage/ipfs/bafyImg/ghost-42.png"))
  {
    ScenarioCids(env.imageUpload.response, env.metaUpload.response);
    assert Property(body, "fid") == Str("42") && Property(body, "imageUrl") == Str("https://x/y.png");
    assert ImageFilename(Str("42")) == "ghost-42.png";
    assert MetaFilename(Str("42")) == "metadata-42.json";
    assert Pinned(body, env);
    ScenarioImageLocators("bafyImg", "ghost-42.png");
    ScenarioMetaLocators("bafyMeta", "metadata-42.json");
    SuccessfulPin(body, env, map[]);
  }

  // ---------------------------------------------------------------------
  // The route as the server runs it: step by step over `tmp/`

  /**
   * The server process of the route: the files in its `tmp/` directory and
   * the outbound calls it has made so far.
   */
  class PinningRoute {
    var tmp: map<string, FileContent>
    var calls: seq<Call>

    constructor (existing: map<string, FileContent>)
      ensures tmp == existing && calls == []
    {
      tmp := existing;
      calls := [];
    }

    /** `downloadToTemp`: fetch the image and write it to `tmp/<filename>`, or throw. */
    method DownloadToTemp(url: string, filename: string, reply: Download) returns (r: Result<string>)
      modifies this
      ensures calls == old(calls) + [DownloadCall(url)]
      ensures reply.FetchThrew? ==> r == Err(reply.message) && tmp == old(tmp)
      ensures reply.Fetched? && !HttpOk(reply.status) ==>
                r == Err(DownloadFailure(url, reply.status)) && tmp == old(tmp)
      ensures reply.Fetched? && HttpOk(reply.status) ==>
                r == Ok(TmpPath(filename)) && tmp == old(tmp)[TmpPath(filename) := ImageBytes(reply.bytes)]
    {
      calls := calls + [DownloadCall(url)];
      match reply {
        case FetchThrew(message) =>
          r := Err(message);
        case Fetched(status, bytes) =>
          if !HttpOk(status) {
            r := Err(DownloadFailure(url, status));
          } else {
            var path := TmpPath(filename);
            tmp := tmp[path := ImageBytes(bytes)];
            r := Ok(path);
          }
      }
    }

    /** `lighthouse.upload(path)`: sends the file's content and hands back the SDK's reply. */
    method UploadFile(path: string, reply: UploadResult) returns (r: UploadResult)
      requires path in tmp
      modifies this`calls
      ensures calls == old(calls) + [UploadCall(path, tmp[path])]
      ensures r == reply
    {
      calls := calls + [UploadCall(path, tmp[path])];
      r := reply;
    }

    /** `checkPublicGateway`: HEAD the public URL; any error counts as unreachable. */
    method CheckPublicGateway(cid: string, filename: string, reply: Probe) returns (ok: bool)
      modifies this`calls
      ensures calls == old(calls) + [ProbeCall(ProbeUrl(cid, filename))]
      ensures ok == Reachable(reply)
    {
      calls := calls + [ProbeCall(ProbeUrl(cid, filename))];
      ok := Reachable(reply);
    }

    /** `fs.writeFileSync(path, content)`. */
    method WriteFile(path: string, content: FileContent)
      modifies this`tmp
      ensures tmp == old(tmp)[path := content]
    {
      tmp := tmp[path := content];
    }

    /** `try { fs.unlinkSync(path) } catch (e) {}`: a missing file is no error. */
    method Unlink(path: string)
      modifies this`tmp
      ensures tmp == old(tmp) - {path}
    {
      tmp := tmp - {path};
    }

    /** `handler`: one request, as `Pin` describes it. */
    method Handle(body: map<string, JsVal>, env: Environment) returns (response: Response)
      requires 0.0 <= env.moodDraw < 1.0
      modifies this
      ensures response == Pin(body, env, old(tmp)).response
      ensures tmp == Pin(body, env, old(tmp)).tmp
      ensures calls == old(calls) + Pin(body, env, old(tmp)).made
    {
      var imageUrl, fid := Property(body, "imageUrl"), Property(body, "fid");
      if !Truthy(imageUrl) || !Truthy(fid) {
        return Response(400, ErrorBody(MissingInput));
      }
      var imageFile := ImageFilename(fid);
      var downloaded := DownloadToTemp(ToStr(imageUrl), imageFile, env.download);
      if downloaded.Err? {
        return ServerError(downloaded.error);
      }
      var imagePath := downloaded.value;
      var imageReply := UploadFile(imagePath, env.imageUpload);
      if imageReply.UploadThrew? {
        return ServerError(imageReply.message);
      }
      var imageCidVal := ExtractCid(imageReply.response);
      if !Truthy(imageCidVal) {
        Unlink(imagePath);
        return ServerError(ImageCidMissing);
      }
      response := PublishMetadata(body, env, ToStr(imageCidVal));
    }

    /** The rest of `handler` once the image is pinned under `imageCid`, as `PinMetadata` describes it. */
    method PublishMetadata(body: map<string, JsVal>, env: Environment, imageCid: string) returns (response: Response)
      requires 0.0 <= env.moodDraw < 1.0
      modifies this
      ensures response == PinMetadata(body, env, imageCid, old(tmp)).response
      ensures tmp == PinMetadata(body, env, imageCid, old(tmp)).tmp
      ensures calls == old(calls) + PinMetadata(body, env, imageCid, old(tmp)).made
    {
      var fid := Property(body, "fid");
      var imageFile := ImageFilename(fid);
      var imagePath := TmpPath(imageFile);
      var rarity := RarityTrait(Property(body, "rarity"), env.rarityDraw);
      var mood := MoodTrait(Property(body, "mood"), env.moodDraw);
      var imageIpfs := IpfsUri(imageCid, imageFile);
      var imagePublicOk := CheckPublicGateway(imageCid, imageFile, env.imageProbe);
      var imageGateway := GatewayUrl(imagePublicOk, imageCid, imageFile);
      var metadata := BuildMetadata(fid, imageIpfs, rarity, mood);
      var metaFile := MetaFilename(fid);
      var metaPath := TmpPath(metaFile);
      WriteFile(metaPath, MetadataJson(metadata));
      var metaReply := UploadFile(metaPath, env.metaUpload);
      if metaReply.UploadThrew? {
        return ServerError(metaReply.message);
      }
      var metaCidVal := ExtractCid(metaReply.response);
      if !Truthy(metaCidVal) {
        Unlink(imagePath);
        Unlink(metaPath);
        return ServerError(MetaCidMissing);
      }
      var metaCid := ToStr(metaCidVal);
      var metadataIpfs := IpfsUri(metaCid, metaFile);
      var metaPublicOk := CheckPublicGateway(metaCid, metaFile, env.metaProbe);
      var metadataGateway := GatewayUrl(metaPublicOk, metaCid, metaFile);
      Unlink(imagePath);
      Unlink(metaPath);
      return Response(200, PinnedBody(metadataIpfs, metadataGateway, imageIpfs, imageGateway));
    }
  }
}
