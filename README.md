# Bands to see: a Dafny model of `models/topArtists.js`

The service reads one Spotify playlist and answers with the "bands to see": one
record per track, in playlist order, carrying the track's title, id and external
URLs, plus the full Spotify artist record of the track's first artist. The model
covers the local computation of `models/topArtists.js`:

- **Credentials** (`credentials.dfy`). This is the bearer-token state.
  - `TokenManager` is a class. Its fields are the expiry time `spotifyAPITokenExpieryTime` and the installed access token.
  - `Refresh` models `refreshSpotifyAccessToken`.
  - `HandleCredentials` models `handleCredentials`.
  - The margin arithmetic is reproduced as written: the lifetime is in seconds, 30 * 1000 is subtracted from it, and the result is multiplied by 1000.
  - The margin is a constant of the object, so the same methods also model the 30-second margin the comment describes (see Findings).
- **ArtistBatches** (`artist_batches.dfy`). This is `getArtists`.
  - `PartitionIds` is the `while` loop that cuts the ids into slices of `artistsPerRequest = 2`.
  - `BuildArtistMap` builds the id-to-artist map of one response.
  - `MergeBatchMaps` is the spread fold, in which keys already merged win.
  - `GetArtists` puts them together. It is proved equal to the specification functions `Batches`, `ArtistMapOf` and `MergeAll`.
- **BandsToSee** (`bands_to_see.dfy`). This is the body of `getBandsToSee`.
  - `BuildLookup` is the track loop. It builds `bandsToSee` and the index `artistIDToBandToSeeIndex`.
  - `AttachArtists` is the nested join loop.
  - `Aggregate` is the whole local part, proved equal to the function `BandsToSeeSpec`.
  - `GetBandsToSee` is the whole call: credential check, playlist, aggregation.
- **SpotifyTypes** (`spotify_types.dfy`) holds the records, the replies of the remote calls, and `Outcome`.

Remote calls are inputs:
- the grant answer is a `Grant`;
- the playlist answer is a `PlaylistReply`;
- the "several artists" endpoint is a function `api` from a batch of ids to an `ArtistsReply`;
- `Date.now()` is the parameter `now` where the expiry is checked and `grantTime` where a grant's answer arrives.

A promise of the service ends in one of three ways: `Resolved`, `Rejected` with an `AuthError` or `PlaylistFetchError`, or `Pending`. `Pending` means the promise never settles. The source leaves a promise unsettled in two places:
- The `catch` after `Promise.all` (lines 224-228) logs the error and neither resolves nor rejects. A failed artist batch therefore leaves `getBandsToSee` pending.
- A track without artists makes `track.artists[0].id` throw. The throw happens inside a `then` callback whose promise nobody returns or awaits, so the outer promise stays pending too.

Three behaviours of the code that a reader might not expect, all modelled as written:
- The expiry check at line 245 is strict: `spotifyAPITokenExpieryTime < Date.now()`. A token is still used at its recorded expiry instant (`RefreshStaysDue`).
- The `catch` at lines 224-228 never calls `reject`, so a failed artist batch leaves the call unsettled (`NoArtistFetchError`). The handler that would pass the error on, at line 128 ("Reject back to caller with the error"), is never reached that way.
- Line 112 assigns `artists[artistToSeeID]`, which is `undefined` for an id the API did not return. `BandsToSeeSpec` gives `None` there. `EveryBandGetsItsArtist` states when every band does get its artist.

Key order: `Object.keys` and `for … in` over `artistIDToBandToSeeIndex` are modelled in insertion order (`FirstSeen`). JavaScript puts array-index-like keys first. A Spotify artist id is 22 base-62 characters long, which is longer than any array index, so that rule does not apply to real ids.

## Model

| member | source | states |
|---|---|---|
| Credentials.TokenManager.AsWritten | models/topArtists.js:12-13 | the expiry starts at 0, no token is installed, no grant has been requested, and the margin is 30 * 1000 as written |
| Credentials.TokenManager.Corrected | models/topArtists.js:34-35 | the same initial state with the 30-second margin the comment describes |
| Credentials.LoadModule | models/topArtists.js:13-22 | module load starts one refresh and drops its outcome: the token and expiry are installed on success, and the initial state (expiry 0, no token) survives a failed grant |
| Credentials.TokenManager.Refresh | models/topArtists.js:25-56 | exactly one grant request. On success it resolves, installs the token and sets the expiry to `grantTime + (expires_in - margin) * 1000`. On failure it rejects with AuthError and leaves expiry and token unchanged |
| Credentials.TokenManager.HandleCredentials | models/topArtists.js:241-266 | refreshes exactly when the recorded expiry is before `now` (with Refresh's effects and outcome). Otherwise it resolves with no grant and no change of state |
| Credentials.CheckTwice | models/topArtists.js:241-266 | two checks in a row send no grant while the token is still valid at the second. With the margin as written, a granted token under 30000 s makes the second check send another grant. With the 30-second margin, a second check before the margin starts (until 30 s before the token's real end of life) sends none |
| Credentials.GrantedExpiry | models/topArtists.js:32-38 | the expiry a grant records, with the margin subtracted from the lifetime in seconds before scaling to milliseconds. It lies before the grant exactly when the lifetime is shorter than the margin, and never after the real end of life for a non-negative margin |
| Credentials.RefreshStaysDue | models/topArtists.js:245 | the check `NeedsRefresh` (`expiry < now`) is strict, so a token is still used at its expiry instant, and once a refresh is due it stays due at every later reading of the clock |
| Credentials.RefreshDueBeforeRealExpiry | models/topArtists.js:32-38 | after a grant, a refresh is due exactly when `now` is past the real end of life less `margin` read as seconds |
| Credentials.AsWrittenGrantIsAlreadyStale | models/topArtists.js:32-38 | as written, any lifetime under 30000 s gives an expiry before the grant itself, so every later check refreshes |
| Credentials.HourLongGrantAsWritten | models/topArtists.js:32-38 | as written, a 3600 s grant's expiry is 26400 s before the grant |
| Credentials.IntendedGrantIsEarlyByMargin | models/topArtists.js:34-38 | with a 30-second margin, the token counts as valid from the grant until 30 s before its real end of life, and is refreshed after that |
| ArtistBatches.PartitionIds | models/topArtists.js:198-208 | the batching loop produces exactly `Batches(artists, 2)` and terminates, with `startIndex` advancing by 2 per batch |
| ArtistBatches.BatchesFlatten | models/topArtists.js:201-208 | concatenating the batches in order gives back the id sequence exactly |
| ArtistBatches.BatchSizes | models/topArtists.js:203-204 | every batch is non-empty and holds at most `artistsPerRequest` ids |
| ArtistBatches.BatchCount | models/topArtists.js:202-206 | the number of batches is the least count whose capacity covers the ids (ceil(n/k)); no ids give no batches |
| ArtistBatches.TwoPerBatchCount | models/topArtists.js:198-208 | with two per request there are exactly (n+1)/2 batches |
| ArtistBatches.BatchIsSlice | models/topArtists.js:203-204 | batch j is the slice `[j*k, min(j*k+k, n))` of the ids |
| ArtistBatches.BatchAtOffset | models/topArtists.js:203-204 | id `j*k + r` (r < k) sits at offset r of batch j |
| ArtistBatches.TwoPerBatchPosition | models/topArtists.js:201-208 | with two per request, id i sits in batch i/2 at offset i%2 |
| ArtistBatches.UniqueBatch | models/topArtists.js:201-208 | for distinct ids, batch i/2 at offset i%2 is the only place id i occurs, so each id lands in exactly one batch |
| ArtistBatches.InFlatten | models/topArtists.js:201-208 | an id is among the batched ids exactly when it is in some batch |
| ArtistBatches.BuildArtistMap | models/topArtists.js:173-185 | the loop over one response builds exactly `ArtistMapOf(responseArtists)` |
| ArtistBatches.ArtistMapOfKeys | models/topArtists.js:177-182 | a batch map's keys are exactly the ids of its response artists, and each key maps to an artist carrying that id |
| ArtistBatches.ArtistMapOfLastWins | models/topArtists.js:177-182 | when an id repeats in a response, the last artist with that id is kept |
| ArtistBatches.MergeBatchMaps | models/topArtists.js:213-218 | the spread fold builds exactly `MergeAll(responseArr)` |
| ArtistBatches.MergeAllKeys | models/topArtists.js:213-218 | `MergeAll`, the spread fold `{...responseArr[index], ...spotifyArtists}`, has as its key set the union of the batch maps' keys |
| ArtistBatches.MergeAllFirstWins | models/topArtists.js:216 | on a key collision, the value from the earliest batch holding the key is kept |
| ArtistBatches.MergeAllFrom | models/topArtists.js:216 | every merged value comes from some batch map holding that key |
| ArtistBatches.GetArtists | models/topArtists.js:157-232 | never rejects. It is pending exactly when some batch request fails. Otherwise it resolves with the merge of the batch maps of `Batches(artists, 2)` |
| ArtistBatches.MergedKeys | models/topArtists.js:210-221 | when every batch is answered, an id is in the result exactly when some batch reply lists it, and it maps to an artist with that id |
| ArtistBatches.RequestedIdsResolved | models/topArtists.js:157-232 | when every batch reply lists each id it was asked for, every requested id is in the result, mapped to its own artist |
| ArtistBatches.ExactAnswerKey | models/topArtists.js:157-232 | when the API answers each batch with exactly the asked ids, an id is in the result exactly when it was requested |
| ArtistBatches.ExactKeySet | models/topArtists.js:157-232 | under exact answers the result's key set is the requested set |
| ArtistBatches.ExactAnswersGiveExactKeys | models/topArtists.js:157-232 | under exact answers the result's key set is the requested set, and for distinct ids it holds one entry per id |
| ArtistBatches.DistinctCardinality | models/topArtists.js:102 | a sequence without repeats has as many distinct elements as entries |
| BandsToSee.FirstSeenElements | models/topArtists.js:93-102 | `FirstSeen`, the insertion order that `Object.keys` returns, holds exactly the first-artist ids that occur, each once |
| BandsToSee.FirstSeenExtends | models/topArtists.js:93-94 | one more track keeps the earlier keys in place and appends its id only when it was not seen before |
| BandsToSee.FirstIndex | models/topArtists.js:93-94 | the position at which an id first occurs |
| BandsToSee.FirstIndexOfPrefix | models/topArtists.js:83-99 | an id's first occurrence in a prefix is its first occurrence in the whole sequence |
| BandsToSee.FirstSeenOrder | models/topArtists.js:102 | the index keys are in first-seen order: an earlier key first occurs before a later one |
| BandsToSee.RecordedKeys | models/topArtists.js:93-98 | recording one more track keeps the keys equal to the first-seen first-artist ids so far |
| BandsToSee.RecordedPositions | models/topArtists.js:93-98 | after recording one more track, each position is listed under its own track's first artist id and under no other |
| BandsToSee.RecordedIncreasing | models/topArtists.js:94-96 | appending the new position keeps every list in increasing track order |
| BandsToSee.IndexStep | models/topArtists.js:83-99 | one iteration of the track loop preserves the index invariant |
| BandsToSee.BuildLookup | models/topArtists.js:78-99 | gives None exactly when a track has no artist (the loop throws). Otherwise there is one band per track in playlist order, with title, id and URLs copied. The keys are the distinct first-artist ids in first-seen order. Each position is listed exactly under its track's first artist id, and each list is increasing |
| BandsToSee.AttachArtists | models/topArtists.js:107-117 | every band at a position listed under key k gets `artist = artists[k]` (None when absent). No other field changes, and bands at unlisted positions are unchanged |
| BandsToSee.Aggregate | models/topArtists.js:76-131 | the playlist handler's result equals `BandsToSeeSpec`: pending on a track without artists or a failed batch, otherwise each track's band carrying the fetched artist of its first artist id |
| BandsToSee.GetBandsToSee | models/topArtists.js:68-149 | the credential check's effects on expiry, token and grant count: a refresh is due exactly when the expiry is before `now`; a granted refresh installs its token and expiry, and a failed one keeps both and rejects with AuthError; with no refresh due nothing changes. Past the check, a failed playlist request rejects with PlaylistFetchError, and a delivered playlist gives `BandsToSeeSpec` |
| BandsToSee.ResolvedBandsFollowPlaylist | models/topArtists.js:78-90 | a resolved result has exactly one band per track, in playlist order, with title, track id and URLs copied from that track |
| BandsToSee.EveryBandGetsItsArtist | models/topArtists.js:104-120 | when every track lists an artist and the API answers each requested id, the call resolves and every band carries the artist whose id is its track's first artist id |
| BandsToSee.NoArtistFetchError | models/topArtists.js:224-228 | once the playlist has arrived the call is never rejected: the artist-fetch failure is swallowed |
| BandsToSee.SharedArtistScenario | models/topArtists.js:83-120 | tracks by A, A (and C) and B give the keys [A, B], a single request, and bands carrying A, A and B |

## Left out

- The Spotify client library (`clientCredentialsGrant`, `getPlaylist`, `getArtists`, `setAccessToken`) is a set of foreign network calls. Their answers are inputs, and `setAccessToken` is the `accessToken` field.
- `Date.now()` is the parameters `now` and `grantTime`.
- Logging (`utils/logHelper.js` and every `logger` call) is output only.
- `routes/userdata.js` (Express routing and HTTP marshalling) and `secrets` loading are outside the local computation.
- Promise scheduling and the concurrent `Promise.all` fan-out are not modelled. The batch maps are merged in index order, as the fold does. Interleavings of concurrent `getBandsToSee` calls, including racing refreshes, are not modelled.
- Null entries in an artist response are not modelled. The API returns `null` for an unknown id, and `currentArtist.id` would then throw. `Artist` has no null value.
- Tracks that are `null` (for example local files) are not modelled. `Track` has no null value; only a track with an empty artist list is.
- Artist ids that collide with `Object.prototype` properties (such as `constructor`) are not modelled. For those ids `artistIDToBandToSeeIndex[id] === undefined` is false on first sight. Ids are plain map keys here.
- Unhandled rejections are modelled as never settling. Two exist: a failed startup grant (line 22), and a throw from `track.artists[0].id` inside the `then` at lines 75-139, whose promise nobody returns. Node.js before version 15 only warns about them. From version 15 on, Node.js ends the process by default, and the source pins no Node.js version. Ending the process is not modelled.
- Array-index-like keys come first in `Object.keys` order. This is not modelled, because real Spotify ids never have that form.
- `for … in` yields the string form of each track index. This is not modelled: positions are `nat`, and JavaScript array reads coerce the string back.
- A `Track` keeps only artist ids. A `Band` keeps the fetched artist record as an id plus an opaque body.
- BandsToSee.AttachArtists: requires that no position is listed under two keys. The source's index has this property (BuildLookup), and the join would otherwise let the last key win.

## Findings

| source | as written | input that shows it | evidently intended | confidence | as-written member | corrected member |
|---|---|---|---|---|---|---|
| models/topArtists.js:34-38 | `tokenLifeSeconds - (30 * 1000)` subtracts 30000 from a lifetime in seconds before scaling to milliseconds | `expires_in = 3600`: the expiry is set 26400 s before the grant, so every `handleCredentials` call requests a new token | subtract 30 seconds: `(expires_in - 30) * 1000` | high; not executed | Credentials.HourLongGrantAsWritten | Credentials.IntendedGrantIsEarlyByMargin |
