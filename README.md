# FID Ghost: pinning route, profile route and sign-in logic in Dafny

This project models the logic of a small Next.js application. The app signs a user in with a
Farcaster identity, pins a generated "ghost" avatar and its NFT metadata to IPFS through
Lighthouse, and hands back canonical `ipfs://` locators together with gateway URLs.
The model covers three pieces of it:

- **The asset-pinning route** (`pages/api/upload.js`), in `upload.dfy`, module `Upload`.
  - Pure parts are functions: `PickRarity`, `PickMood`, the content-id extraction `ExtractCid`,
    the locators (`IpfsUri`, `ProbeUrl`, `GatewayUrl`) and the metadata record `BuildMetadata`.
  - The route as a whole is the specification function `Pin`. It maps the request body, the
    results of every outside call and the old content of `tmp/` to an `Outcome`. An `Outcome` is
    the response, the new content of `tmp/` and the outbound calls made, in order.
  - The class `PinningRoute` is the route run step by step. Its fields are the `tmp/` directory
    (a map from path to file content) and the log of outbound calls. Its `Handle` method writes
    and unlinks files as `handler` does, and is proved to end in exactly the state `Pin` gives.
  - Lemmas about `Pin` state the route's promises: validation, cleanup on each failure path,
    the success response, that the gateway probes decide only the two gateway URLs (not the
    status, the canonical locators or the files left behind), and that `displayName` changes
    nothing.
- **The placeholder profile route** (`pages/api/farcaster-profile.js`), in
  `farcaster_profile.dfy`, module `FarcasterProfile`. This is a pure function from query to response.
- **The sign-in component** (`src/components/FarcasterSignIn.jsx`), in `farcaster_sign_in.dfy`,
  module `FarcasterSignIn`.
  - `Normalize` models `normalize`.
  - `ProfileToDeliver` and `ManualProfile` decide whether `onProfile` fires, and with what.
  - The class `SignInWidget` holds the `loading` and `connected` flags and the list of
    `onProfile` arguments. Its methods model `handleProfile`, `handleSignIn`, `handleManual`
    and the auto-connect effect.

Shared modules:

- `js_values.dfy` (`JsValues`): the JavaScript semantics the code relies on. This covers
  truthiness (`""`, `0`, `null`, `undefined` and `false` are falsy), optional property access
  `?.`, left-grouped `||` chains, and `String(v)`.
- `node_path.dfy` (`NodePath`): how Node's `path.join` splits a path at `/` and resolves `.`
  and `..` segments.
- `decimal.dfy` (`Decimal`): how integers print.
- `http.dfy` (`Http`): responses and their JSON bodies.
- `wrappers.dfy` (`Wrappers`): `Option` and `Result`.

Outside calls become inputs:

- the image download: a status and bytes, or a thrown error;
- `lighthouse.upload`: a reply of any shape, or a thrown error;
- the gateway HEAD probe: a status, or a thrown error or timeout;
- `Math.random()`: two draws, each a `real`. The mood draw must lie in [0, 1), since it indexes
  the mood list; the rarity draw may be any real, because `PickRarity` gives a tier for every draw;
- `prompt`, the profile lookup and ConnectKit: their results.

Behaviour of the code worth knowing:

- A draw exactly on a rarity threshold falls in the next, more common tier, because the tests
  are strict `<`: `PickRarity(0.005)` is `Legendary` (`ThresholdDraws`).
- The route removes its temporary files only on the two missing-CID paths and on success. When
  `lighthouse.upload` throws, the `catch` block removes nothing, so the files written so far stay
  in `tmp/` (`UploadExceptionKeepsTempFiles`).
- `handleProfile` tests `!p.fid`, so a normalised fid equal to `""` does not fire `onProfile`.
  This happens when the first truthy fid field is an array that prints as `""`, such as `[]`,
  `[null]` or `[""]` (`DeliveredUnlessArrayFid`).

## Model

| member | source | states |
|---|---|---|
| `JsValues.OrChainSpec` | src/components/FarcasterSignIn.jsx:25-30 | a chain of `\|\|` yields its first truthy operand, or its last operand when none is truthy; the result is truthy iff some operand is |
| `JsValues.ToStr` | pages/api/upload.js:73 | `String(v)` of a string is the string itself; `String` of a truthy non-array value is never empty |
| `Decimal.NatToString` | pages/api/upload.js:10 | a number prints as a non-empty string of decimal digits with no leading zero |
| `Decimal.NatToStringRoundTrip` | pages/api/upload.js:10 | reading the printed digits back gives the number again |
| `Decimal.IntToString` | pages/api/upload.js:73 | an integer prints as a non-empty string that starts with `-` exactly when the integer is negative |
| `Http.ServerError` | pages/api/upload.js:106-108 | a caught error becomes a 500 response, which is not a 2xx status |
| `Upload.PickRarity` | pages/api/upload.js:29-36 | for a draw in [0,1), the tier is the one whose interval [low, high) holds the draw: Mythic [0, 0.005), Legendary [0.005, 0.025), Epic [0.025, 0.075), Rare [0.075, 0.175), Common [0.175, 1); no other tier's interval holds it |
| `Upload.RarerForSmallerDraw` | pages/api/upload.js:29-36 | a smaller draw never gives a more common tier |
| `Upload.ThresholdDraws` | pages/api/upload.js:31-34 | a draw exactly on 0.005, 0.025, 0.075 or 0.175 gives the next, more common tier |
| `Upload.MoodIndex` | pages/api/upload.js:40 | `floor(r*5)` is always a valid index 0..4, and equals k exactly when k/5 <= r < (k+1)/5 |
| `Upload.PickMood` | pages/api/upload.js:38-41 | the mood is one of Calm, Happy, Neutral, Serious, Playful: the k-th one for a draw in [k/5, (k+1)/5) |
| `Upload.RarityTrait` | pages/api/upload.js:60 | a truthy client rarity is kept as given; otherwise the value is the drawn tier's name, one of the five names; the result is always truthy |
| `Upload.MoodTrait` | pages/api/upload.js:61 | a truthy client mood is kept as given; otherwise the value is the drawn mood, one of the five moods; the result is always truthy |
| `Upload.ExtractCid` | pages/api/upload.js:52 | the content id is the first truthy value among `data.cid`, `data.Hash`, `cid`, `Hash`; it is falsy exactly when none of the four is truthy |
| `Upload.CidPrecedence` | pages/api/upload.js:85 | a truthy `data.cid` wins over every other field, and a truthy `data.Hash` wins over the top-level fields |
| `Upload.TmpPathsDistinct` | pages/api/upload.js:48-49 | as file names, `tmp/ghost-<fid>.png` is never a `tmp/metadata-<fid>.json`, and two fids get the same image or metadata name only when they print the same |
| `NodePath.JoinPlainNames` | pages/api/upload.js:12-14 | `path.join` of two plain names (non-empty, no `/`, not `.` or `..`) is the first, `/`, and the second, unchanged |
| `NodePath.JoinParentCancels` | pages/api/upload.js:14 | `path.join` resolves `dir/a/../name` to `dir/name` |
| `NodePath.JoinParentEscapes` | pages/api/upload.js:14 | `path.join` resolves `dir/a/../../name` to `name`, outside `dir` |
| `Upload.TmpPathsMatchJoin` | pages/api/upload.js:12-14 | for a fid whose `String` has no `/`, `path.join(cwd, "tmp", name)` names exactly `tmp/<name>` for both the image and the metadata file |
| `Upload.ImagePathTraversal` | pages/api/upload.js:14 | fid `"1/../ghost-2"` gets the same joined image path as fid `"2"`, although the two plain paths differ |
| `Upload.MetaPathTraversal` | pages/api/upload.js:81 | fid `"/../../package"` gets the joined metadata path `package.json`, outside `tmp/`, which is not its plain `tmp/<name>` path |
| `Upload.JoinedTmpPathsDistinct` | pages/api/upload.js:12-14 | for fids whose `String` has no `/`, the joined paths keep requests apart: an image file is never a metadata file, and two fids share a file only when they print the same |
| `Upload.GatewayUrl` | pages/api/upload.js:63-66 | a reachable public gateway yields exactly the URL that was probed; otherwise the Lighthouse gateway URL |
| `Upload.GatewayMatchesLocator` | pages/api/upload.js:92-95 | every gateway URL is its host prefix followed by the same `<cid>/<file>` path as the canonical `ipfs://` locator |
| `Upload.IpfsUriRoundTrip` | pages/api/upload.js:63 | for a non-empty content id without `/`, `ipfs://<cid>/<file>` splits back into exactly that cid and file |
| `Upload.BuildMetadata` | pages/api/upload.js:68-78 | the record has exactly four traits, in the order FID, Style, Rarity, Mood; name, description and the FID trait all carry `String(fid)`; Style is "Ghost"; image is the given image locator |
| `Upload.Reachable` | pages/api/upload.js:19-27 | the public gateway counts as reachable only on a 2xx reply; a thrown error or timeout counts as unreachable and is never surfaced |
| `Upload.PinMetadata` | pages/api/upload.js:58-105 | once the image is pinned, the route answers 200 exactly when the metadata upload returns a truthy content id, and 500 otherwise |
| `Upload.Pin` | pages/api/upload.js:43-110 | the route answers 400 exactly when `imageUrl` or `fid` is falsy, 200 exactly when the download succeeds and both uploads give a content id, and 500 in every other case |
| `Upload.MissingInputRejected` | pages/api/upload.js:45-46 | a falsy `imageUrl` or `fid` gives 400 `missing imageUrl or fid`; no call is made and `tmp/` is unchanged |
| `Upload.DownloadFailureReported` | pages/api/upload.js:8-10 | a failed download gives 500 with the thrown message, or with `Failed to download <url> - <status>`; only the download was attempted and nothing was written |
| `Upload.ImageCidFailureCleansUp` | pages/api/upload.js:53-56 | no image content id: 500 with the image message; only the image file is removed, and the metadata file is never written or uploaded |
| `Upload.MetaCidFailureCleansUp` | pages/api/upload.js:86-90 | no metadata content id: 500 with the metadata message, and both temporary files are removed |
| `Upload.UploadExceptionKeepsTempFiles` | pages/api/upload.js:51 | when an upload throws, the response is 500 and the files written so far remain in `tmp/` |
| `Upload.MetadataRecordUploaded` | pages/api/upload.js:80-84 | the metadata uploaded is the record built from `fid`, the canonical image locator and the two traits, and the image probe comes before it |
| `Upload.SuccessfulPin` | pages/api/upload.js:92-105 | on success: 200 with the two canonical locators and the two gateway URLs, each gateway chosen by its own probe; neither temporary file remains; the two probes are the third and fifth calls |
| `Upload.CanonicalUrisIgnoreProbes` | pages/api/upload.js:63-66 | whatever the probes answer, the status, the canonical locators and the files left behind are the same |
| `Upload.DisplayNameIgnored` | pages/api/upload.js:45 | the request's `displayName` changes nothing the route does |
| `Upload.LighthouseFallbackScenario` | pages/api/upload.js:100-105 | fid "42", content ids `bafyImg` and `bafyMeta`, public gateway down: the response holds `ipfs://bafyImg/ghost-42.png`, `ipfs://bafyMeta/metadata-42.json` and their Lighthouse gateway URLs |
| `Upload.PinningRoute.DownloadToTemp` | pages/api/upload.js:8-17 | records the download; on a 2xx reply writes the bytes to `tmp/<filename>` and returns that path; otherwise returns the error and leaves `tmp/` unchanged |
| `Upload.PinningRoute.UploadFile` | pages/api/upload.js:51 | records an upload of the file's current content and returns the SDK's reply |
| `Upload.PinningRoute.CheckPublicGateway` | pages/api/upload.js:19-27 | records a probe of the public gateway URL and returns whether it is reachable |
| `Upload.PinningRoute.WriteFile` | pages/api/upload.js:82 | `tmp/` gains or overwrites exactly that file |
| `Upload.PinningRoute.Unlink` | pages/api/upload.js:54 | exactly that path leaves `tmp/`; a missing file is no error |
| `Upload.PinningRoute.Handle` | pages/api/upload.js:43-110 | the response, the new content of `tmp/` and the calls appended to the log are exactly those `Pin` gives |
| `Upload.PinningRoute.PublishMetadata` | pages/api/upload.js:58-105 | the steps after the image is pinned end in exactly the state `PinMetadata` gives |
| `FarcasterProfile.QueryKey` | pages/api/farcaster-profile.js:4 | the key is `q` when truthy, else `fid` when truthy, else `""`, converted to a string |
| `FarcasterProfile.Handle` | pages/api/farcaster-profile.js:4-8 | an empty key gives 400 `missing q`; any other key gives 200 with fid equal to the key, displayName `farcaster-<fid>` and pfp_url the dicebear URL seeded with that displayName |
| `FarcasterProfile.QueryTakesPrecedence` | pages/api/farcaster-profile.js:4 | with a truthy `q`, the `fid` parameter has no effect |
| `FarcasterProfile.FidFallback` | pages/api/farcaster-profile.js:4-8 | without a truthy `q`, a non-empty `fid` string is echoed as the placeholder profile |
| `FarcasterSignIn.FirstOrEmpty` | src/components/FarcasterSignIn.jsx:32-37 | `a \|\| b \|\| c \|\| d \|\| ""` is the first truthy candidate, or `""` when none is truthy |
| `FarcasterSignIn.Normalize` | src/components/FarcasterSignIn.jsx:24-47 | fid is `String` of the first truthy value among `fid`, `user.fid`, `id`, `data.fid` and a string profile itself, and undefined when none is truthy; displayName is the first truthy value among `displayName`, `username`, `user.displayName`, `user.username`, else `""`; pfp_url is the first truthy value among `pfp_url`, `avatarUrl`, `user.pfp_url`, `user.avatarUrl`, else `""` |
| `FarcasterSignIn.NormalizeString` | src/components/FarcasterSignIn.jsx:30 | a non-empty string profile is its own fid, with empty displayName and pfp_url |
| `FarcasterSignIn.ProfileToDeliver` | src/components/FarcasterSignIn.jsx:49-53 | `onProfile` fires exactly when the normalised fid is a non-empty string, and then gets exactly the three normalised fields |
| `FarcasterSignIn.DeliveredUnlessArrayFid` | src/components/FarcasterSignIn.jsx:46-52 | with no truthy fid candidate nothing is delivered; when the first truthy candidate is not an array, it is delivered as its string form |
| `FarcasterSignIn.ManualProfile` | src/components/FarcasterSignIn.jsx:79-100 | an empty or cancelled prompt gives no call; otherwise exactly one call: with `String(data.fid)` and `""` defaults when the lookup replies 2xx with a truthy `data.fid`, and with the typed fid and empty displayName and pfp_url otherwise |
| `FarcasterSignIn.ManualLookupOfPlaceholder` | src/components/FarcasterSignIn.jsx:84-88 | looked up against the placeholder route, a typed fid is delivered unchanged, named `farcaster-<fid>`, with the dicebear avatar |
| `FarcasterSignIn.SignInWidget.constructor` | src/components/FarcasterSignIn.jsx:5-6 | the widget starts neither loading nor connected, with no profile delivered |
| `FarcasterSignIn.SignInWidget.HandleProfile` | src/components/FarcasterSignIn.jsx:49-53 | appends the `onProfile` argument that `ProfileToDeliver` decides, or nothing |
| `FarcasterSignIn.SignInWidget.HandleSignIn` | src/components/FarcasterSignIn.jsx:55-77 | `loading` always ends false; with ConnectKit available and a truthy profile, that profile is handled and the widget becomes connected, even when no fid was found; otherwise nothing is delivered and `connected` is unchanged |
| `FarcasterSignIn.SignInWidget.AutoConnect` | src/components/FarcasterSignIn.jsx:8-22 | a truthy profile from `getProfile` is handled and marks the widget connected; otherwise nothing changes |
| `FarcasterSignIn.SignInWidget.HandleManual` | src/components/FarcasterSignIn.jsx:79-100 | an empty or cancelled prompt changes nothing; otherwise exactly one `onProfile` call with `ManualProfile`'s argument, and the widget ends connected and not loading |

## Left out

- Network I/O becomes inputs: the image download, `lighthouse.upload`, the gateway HEAD probe
  and its 8000 ms timeout, and the profile lookup. The same goes for the API key and `process.cwd()`.
- The file system is reduced to a map from `tmp/<name>` paths to contents. `mkdirSync` and write
  or unlink errors are left out. The exact `JSON.stringify` text of the metadata file is also left
  out; the file holds the record itself.
- `Upload.Pin`, `Upload.PinMetadata`, `Upload.PinningRoute.Handle`, `Upload.PinningRoute.PublishMetadata`,
  `Upload.PinningRoute.DownloadToTemp`, `Upload.ImageCidFailureCleansUp`, `Upload.MetaCidFailureCleansUp`,
  `Upload.UploadExceptionKeepsTempFiles`, `Upload.MetadataRecordUploaded` and `Upload.SuccessfulPin` use the plain path `tmp/<name>`, one entry per name. They describe
  the route as written only for a fid whose `String` contains no `/`; for those `path.join`
  gives the same paths (`TmpPathsMatchJoin`). For a fid with `/`, the route can answer 500 where
  the model answers 200 (fid `"a/b"`: `writeFileSync` finds no directory `tmp/ghost-a`), and it
  can write and remove files other than its own (see Findings).
- `NodePath.JoinPath` works relative to the working directory, drops a trailing `/`, and does
  not model `path.join`'s other corner cases. None of these matter for the file names the route builds.
- `Math.random()` becomes a `real` parameter. Its distribution and floating-point
  rounding are not modelled.
- `JsValues.ToStr`: numbers are integers, and every integer prints in plain decimal. JavaScript's
  fractions, `NaN`, `-0` and the exponent notation it uses from 10^21 up are not modelled.
- `Upload.Pin`: the request body is taken to be an object. A `null` or `undefined` body, which
  makes the destructuring throw a `TypeError` that the route turns into a 500, is not modelled.
- `FarcasterSignIn.ManualProfile` and `FarcasterSignIn.SignInWidget.HandleManual`: `onProfile` is assumed not to throw. In the source, a throw
  inside the `try` would be swallowed and followed by a second, fallback call.
- `FarcasterSignIn.SignInWidget.HandleSignIn`: `onProfile` is assumed not to throw here either. In
  the source, a throw out of the awaited `handleProfile` skips `setConnected(true)`.
- Thrown errors from `arrayBuffer()` and from `res.json()` are folded into the download failure
  and into `Unusable` respectively.
- React rendering, `alert`, `prompt`, `console.error` and ConnectKit's own behaviour are not
  modelled. Their results enter as parameters.
- Two concurrent requests for the same fid share temporary file names. This hazard is a
  concurrency matter and is not modelled; each request runs alone on the `tmp/` map.
- `pages/api/generate.js`, `src/Main.jsx`, `scripts/deploy.js` and `hardhat.config.js` are not
  part of this model. They hold image generation, React state, minting and chain configuration.

## Findings

| source | as written | input that shows it | evidently intended | confidence | as-written member | corrected member |
|---|---|---|---|---|---|---|
| pages/api/upload.js:14, pages/api/upload.js:81 | the temporary file names embed the client's `fid` unchecked, and `path.join` resolves any `..` in it | fid `"1/../ghost-2"` writes and then removes `tmp/ghost-2.png`, the image of fid `"2"`; fid `"/../../package"` writes and then removes `package.json` in the working directory | each request's temporary files are entries of `tmp/` that belong to its own fid; the fix is to refuse a fid whose `String` contains `/` | not executed; high (`path.join` normalisation is documented Node behaviour) | `Upload.ImagePathTraversal`, `Upload.MetaPathTraversal` | `Upload.JoinedTmpPathsDistinct` |
