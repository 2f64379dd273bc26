/**
 * Value types shared by the model of models/topArtists.js: the records the
 * Spotify Web API hands back, the band records the service builds, and the
 * ways a promise of the service can end.
 */
module SpotifyTypes {

  /** A Spotify artist identifier (a base-62 string in practice). */
  type ArtistId = string

  datatype Option<T> = None | Some(value: T)

  /** An artist object as the API returns it; everything but its id is opaque here. */
  datatype Artist = Artist(id: ArtistId, body: string)

  /**
   * One playlist track: its name, id, external URLs and the ids of its
   * artists in the order the API lists them.
   */
  datatype Track = Track(name: string, id: string, externalUrls: map<string, string>, artistIds: seq<ArtistId>)

  /**
   * One entry of `bandsToSee`. `artist` is None both before the join (the
   * property is not there yet) and when the join assigns `undefined`.
   */
  datatype Band = Band(trackTitle: string, sourceTrackId: string, externalUrls: map<string, string>, artist: Option<Artist>)

  /** What the client-credentials grant answers. */
  datatype Grant = Granted(accessToken: string, expiresIn: int) | GrantFailed(err: string)

  /** What the playlist request answers. */
  datatype PlaylistReply = PlaylistOk(tracks: seq<Track>) | PlaylistFailed(err: string)

  /** What one "get several artists" request answers. */
  datatype ArtistsReply = ArtistsOk(artists: seq<Artist>) | ArtistsFailed(err: string)

  /** The errors a promise of the service is rejected with. */
  datatype Failure = AuthError(err: string) | PlaylistFetchError(err: string)

  /**
   * How a promise ends: resolved with a value, rejected with an error, or
   * never settled (a failure that is logged but neither resolved nor rejected).
   */
  datatype Outcome<T> = Resolved(value: T) | Rejected(error: Failure) | Pending

  /** JavaScript property lookup on an id-keyed object: a missing key reads as undefined. */
  function Get(m: map<ArtistId, Artist>, k: ArtistId): (r: Option<Artist>)
    ensures r.Some? <==> k in m
    ensures r.Some? ==> r.value == m[k]
  {
    if k in m then Some(m[k]) else None
  }
}
