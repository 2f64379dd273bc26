/**
 * getArtists of models/topArtists.js: the artist ids are cut into contiguous
 * batches of at most two, one "get several artists" request is issued per
 * batch, each answer becomes an id -> artist map, and the maps are folded
 * together with the maps already accumulated taking precedence. The remote API
 * is the function `api`, which answers one request for one batch of ids.
 */
module ArtistBatches {
  import opened SpotifyTypes

  /** `artistsPerRequest` of getArtists. */
  const ArtistsPerRequest: nat := 2

  function Min(a: int, b: int): int
  {
    if a <= b then a else b
  }

  // ---------------------------------------------------------------------------
  // Batching

  /** The contiguous slices of at most `k` elements that `s` is cut into, in order. */
  function Batches<T>(s: seq<T>, k: nat): seq<seq<T>>
    requires k > 0
    decreases |s|
  {
    if s == [] then [] else [s[..Min(k, |s|)]] + Batches(s[Min(k, |s|)..], k)
  }

  function Flatten<T>(ss: seq<seq<T>>): seq<T>
  {
    if ss == [] then [] else ss[0] + Flatten(ss[1..])
  }

  /** Concatenating the batches in order gives back the input exactly. */
  lemma {:induction false} BatchesFlatten<T>(s: seq<T>, k: nat)
    requires k > 0
    ensures Flatten(Batches(s, k)) == s
    decreases |s|
  {
    if s != [] {
      var n := Min(k, |s|);
      BatchesFlatten(s[n..], k);
      calc {
        Flatten(Batches(s, k));
        s[..n] + Flatten(Batches(s[n..], k));
        s[..n] + s[n..];
        s;
      }
    }
  }

  /** Every batch is non-empty and holds at most k elements. */
  lemma {:induction false} BatchSizes<T>(s: seq<T>, k: nat)
    requires k > 0
    ensures forall j :: 0 <= j < |Batches(s, k)| ==> 0 < |Batches(s, k)[j]| <= k
    decreases |s|
  {
    if s != [] {
      var n := Min(k, |s|);
      BatchSizes(s[n..], k);
      assert Batches(s, k) == [s[..n]] + Batches(s[n..], k);
    }
  }

  /** The number of batches b is the least with b * k >= |s|, that is, ceil(|s| / k). */
  lemma {:induction false} BatchCount<T>(s: seq<T>, k: nat)
    requires k > 0
    ensures |Batches(s, k)| * k >= |s|
    ensures |s| > 0 ==> (|Batches(s, k)| - 1) * k < |s|
    ensures s == [] ==> Batches(s, k) == []
    decreases |s|
  {
    if s != [] {
      var n := Min(k, |s|);
      BatchCount(s[n..], k);
      var b := |Batches(s[n..], k)|;
      assert |Batches(s, k)| == b + 1;
      assert (b + 1) * k == b * k + k;
      assert b * k == (b + 1 - 1) * k;
    }
  }

  /** With two ids per request there are ceil(|s| / 2) batches. */
  lemma TwoPerBatchCount<T>(s: seq<T>)
    ensures |Batches(s, 2)| == (|s| + 1) / 2
  {
    BatchCount(s, 2);
  }

  /** Batch `j` is exactly the slice `s[j*k .. min(j*k + k, |s|)]`. */
  lemma {:induction false} BatchIsSlice<T>(s: seq<T>, k: nat, j: nat)
    requires k > 0
    requires j < |Batches(s, k)|
    ensures j * k < |s|
    ensures Batches(s, k)[j] == s[j * k .. Min(j * k + k, |s|)]
    decreases |s|
  {
    var n := Min(k, |s|);
    assert Batches(s, k) == [s[..n]] + Batches(s[n..], k);
    if j > 0 {
      var rest := s[n..];
      BatchIsSlice(rest, k, j - 1);
      var a := (j - 1) * k;
      assert a + k == j * k;
      assert n == k;
      assert Batches(s, k)[j] == rest[a .. Min(a + k, |rest|)];
      assert Min(a + k, |rest|) + k == Min(j * k + k, |s|);
      assert rest[a .. Min(a + k, |rest|)] == s[a + k .. Min(a + k, |rest|) + k];
    }
  }

  /** Multiplying both sides of a <= b by the same batch size keeps the order. */
  lemma MulMonotonic(a: int, b: int, k: nat)
    requires a <= b
    ensures a * k <= b * k
  {
  }

  /** The element at offset r < k of the j-th stretch of k elements is element r of batch j. */
  lemma BatchAtOffset<T>(s: seq<T>, k: nat, j: nat, r: nat)
    requires k > 0 && r < k
    requires j * k + r < |s|
    ensures j < |Batches(s, k)|
    ensures r < |Batches(s, k)[j]|
    ensures Batches(s, k)[j][r] == s[j * k + r]
  {
    BatchCount(s, k);
    var b := |Batches(s, k)|;
    if j >= b {
      MulMonotonic(b, j, k);
      assert false;
    }
    BatchIsSlice(s, k, j);
  }

  /**
   * With two ids per request, id `i` is element `i % 2` of batch `i / 2`:
   * together with BatchesFlatten, every id lands in exactly one batch.
   */
  lemma TwoPerBatchPosition<T>(s: seq<T>, i: nat)
    requires i < |s|
    ensures i / 2 < |Batches(s, 2)|
    ensures i % 2 < |Batches(s, 2)[i / 2]|
    ensures Batches(s, 2)[i / 2][i % 2] == s[i]
  {
    BatchAtOffset(s, 2, i / 2, i % 2);
  }

  /**
   * The other half: for distinct ids, the only place id `i` occurs among the
   * batches is offset `i % 2` of batch `i / 2`.
   */
  lemma UniqueBatch<T>(s: seq<T>, i: nat, j: nat, r: nat)
    requires Distinct(s) && i < |s|
    requires j < |Batches(s, 2)| && r < |Batches(s, 2)[j]|
    requires Batches(s, 2)[j][r] == s[i]
    ensures j == i / 2 && r == i % 2
  {
    BatchIsSlice(s, 2, j);
    assert Batches(s, 2)[j][r] == s[j * 2 + r];
  }

  /** x is in the concatenation of the batches exactly when it is in one of them. */
  lemma {:induction false} InFlatten<T>(ss: seq<seq<T>>, x: T)
    ensures x in Flatten(ss) <==> exists j :: 0 <= j < |ss| && x in ss[j]
  {
    if ss != [] {
      InFlatten(ss[1..], x);
      assert Flatten(ss) == ss[0] + Flatten(ss[1..]);
      if x in Flatten(ss[1..]) {
        var j :| 0 <= j < |ss[1..]| && x in ss[1..][j];
        assert x in ss[j + 1];
      }
      if exists j :: 0 <= j < |ss| && x in ss[j] {
        var j :| 0 <= j < |ss| && x in ss[j];
        if j > 0 {
          assert x in ss[1..][j - 1];
        }
      }
    }
  }

  /**
   * The request loop of getArtists: `startIndex` advances by
   * `artistsPerRequest` and each step takes `artists.slice(startIndex, endIndex)`.
   */
  method PartitionIds(artists: seq<ArtistId>) returns (batches: seq<seq<ArtistId>>)
    ensures batches == Batches(artists, ArtistsPerRequest)
  {
    batches := [];
    var startIndex := 0;
    while startIndex < |artists|
      invariant startIndex == ArtistsPerRequest * |batches|
      invariant batches + Batches(artists[Min(startIndex, |artists|)..], ArtistsPerRequest)
             == Batches(artists, ArtistsPerRequest)
      decreases |artists| - startIndex
    {
      var endIndex := startIndex + ArtistsPerRequest;
      // Array.prototype.slice clamps an end beyond the length.
      var slice := artists[startIndex..Min(endIndex, |artists|)];
      ghost var rest := artists[startIndex..];
      ghost var cut := Min(ArtistsPerRequest, |rest|);
      assert rest[..cut] == slice;
      assert rest[cut..] == artists[Min(endIndex, |artists|)..];
      assert Batches(rest, ArtistsPerRequest) == [slice] + Batches(artists[Min(endIndex, |artists|)..], ArtistsPerRequest);
      assert (batches + [slice]) + Batches(artists[Min(endIndex, |artists|)..], ArtistsPerRequest)
          == batches + Batches(rest, ArtistsPerRequest);
      batches := batches + [slice];
      startIndex := endIndex;
    }
  }

  // ---------------------------------------------------------------------------
  // One batch's answer as a map

  /** The id -> artist map of one answer, later entries overwriting earlier ones. */
  function ArtistMapOf(artists: seq<Artist>): map<ArtistId, Artist>
    decreases |artists|
  {
    if artists == [] then map[]
    else ArtistMapOf(artists[..|artists| - 1])[artists[|artists| - 1].id := artists[|artists| - 1]]
  }

  /** The keys are exactly the ids of the answer's artists, and each maps to an artist with that id. */
  lemma {:induction false} ArtistMapOfKeys(artists: seq<Artist>)
    ensures forall id :: id in ArtistMapOf(artists) <==> exists i :: 0 <= i < |artists| && artists[i].id == id
    ensures forall id :: id in ArtistMapOf(artists) ==> ArtistMapOf(artists)[id].id == id
    decreases |artists|
  {
    if artists != [] {
      var init := artists[..|artists| - 1];
      ArtistMapOfKeys(init);
      forall id | exists i :: 0 <= i < |artists| && artists[i].id == id
        ensures id in ArtistMapOf(artists)
      {
        var i :| 0 <= i < |artists| && artists[i].id == id;
        if i < |artists| - 1 {
          assert init[i].id == id;
        }
      }
      assert ArtistMapOf(artists) == ArtistMapOf(init)[artists[|artists| - 1].id := artists[|artists| - 1]];
      forall id | id in ArtistMapOf(artists)
        ensures exists i :: 0 <= i < |artists| && artists[i].id == id
      {
        if id != artists[|artists| - 1].id {
          var i :| 0 <= i < |init| && init[i].id == id;
          assert artists[i].id == id;
        }
      }
    }
  }

  /** When an id repeats in one answer, the last artist carrying it wins. */
  lemma {:induction false} ArtistMapOfLastWins(artists: seq<Artist>, i: nat)
    requires i < |artists|
    requires forall j :: i < j < |artists| ==> artists[j].id != artists[i].id
    ensures artists[i].id in ArtistMapOf(artists)
    ensures ArtistMapOf(artists)[artists[i].id] == artists[i]
    decreases |artists|
  {
    if i < |artists| - 1 {
      var init := artists[..|artists| - 1];
      ArtistMapOfLastWins(init, i);
    }
  }

  /** The loop of getArtistsFromSpotifyAPI: `artistJSONMap[currentArtist.id] = currentArtist`. */
  method BuildArtistMap(responseArtists: seq<Artist>) returns (artistJSONMap: map<ArtistId, Artist>)
    ensures artistJSONMap == ArtistMapOf(responseArtists)
  {
    artistJSONMap := map[];
    for index := 0 to |responseArtists|
      invariant artistJSONMap == ArtistMapOf(responseArtists[..index])
    {
      var currentArtist := responseArtists[index];
      assert responseArtists[..index + 1][..index] == responseArtists[..index];
      artistJSONMap := artistJSONMap[currentArtist.id := currentArtist];
    }
    assert responseArtists[..|responseArtists|] == responseArtists;
  }

  // ---------------------------------------------------------------------------
  // Merging the batch maps

  /**
   * Folding `spotifyArtists = {...maps[i], ...spotifyArtists}` over the maps
   * in index order: keys already accumulated keep their value.
   */
  function MergeAll(maps: seq<map<ArtistId, Artist>>): map<ArtistId, Artist>
    decreases |maps|
  {
    if maps == [] then map[] else maps[|maps| - 1] + MergeAll(maps[..|maps| - 1])
  }

  /** The merged keys are the union of all batch maps' keys. */
  lemma {:induction false} MergeAllKeys(maps: seq<map<ArtistId, Artist>>)
    ensures forall id :: id in MergeAll(maps) <==> exists j :: 0 <= j < |maps| && id in maps[j]
    decreases |maps|
  {
    if maps != [] {
      var init := maps[..|maps| - 1];
      MergeAllKeys(init);
      forall id | exists j :: 0 <= j < |maps| && id in maps[j]
        ensures id in MergeAll(maps)
      {
        var j :| 0 <= j < |maps| && id in maps[j];
        if j < |maps| - 1 {
          assert id in init[j];
        }
      }
      assert MergeAll(maps) == maps[|maps| - 1] + MergeAll(init);
      forall id | id in MergeAll(maps)
        ensures exists j :: 0 <= j < |maps| && id in maps[j]
      {
        if id !in maps[|maps| - 1] {
          var j :| 0 <= j < |init| && id in init[j];
          assert id in maps[j];
        }
      }
    }
  }

  /** On a key collision the value from the earliest map that has the key is kept. */
  lemma {:induction false} MergeAllFirstWins(maps: seq<map<ArtistId, Artist>>, j: nat, id: ArtistId)
    requires j < |maps| && id in maps[j]
    requires forall i :: 0 <= i < j ==> id !in maps[i]
    ensures id in MergeAll(maps)
    ensures MergeAll(maps)[id] == maps[j][id]
    decreases |maps|
  {
    var init := maps[..|maps| - 1];
    if j < |maps| - 1 {
      MergeAllFirstWins(init, j, id);
    } else {
      forall i | 0 <= i < |init|
        ensures id !in init[i]
      {
        assert init[i] == maps[i];
      }
      MergeAllKeys(init);
    }
  }

  /** Every merged value comes from some batch map under the same key. */
  lemma {:induction false} MergeAllFrom(maps: seq<map<ArtistId, Artist>>, id: ArtistId)
    requires id in MergeAll(maps)
    ensures exists j :: 0 <= j < |maps| && id in maps[j] && MergeAll(maps)[id] == maps[j][id]
    decreases |maps|
  {
    var init := maps[..|maps| - 1];
    if id in MergeAll(init) {
      MergeAllFrom(init, id);
      var j :| 0 <= j < |init| && id in init[j] && MergeAll(init)[id] == init[j][id];
      assert maps[j] == init[j];
    } else {
      assert id in maps[|maps| - 1];
    }
  }

  /** The merge loop of getArtists over the resolved batch maps, in index order. */
  method MergeBatchMaps(responseArr: seq<map<ArtistId, Artist>>) returns (spotifyArtists: map<ArtistId, Artist>)
    ensures spotifyArtists == MergeAll(responseArr)
  {
    spotifyArtists := map[];
    for index := 0 to |responseArr|
      invariant spotifyArtists == MergeAll(responseArr[..index])
    {
      assert responseArr[..index + 1][..index] == responseArr[..index];
      spotifyArtists := responseArr[index] + spotifyArtists;
    }
    assert responseArr[..|responseArr|] == responseArr;
  }

  // ---------------------------------------------------------------------------
  // The whole of getArtists

  /** Every request for a batch is answered with artists (the condition for Promise.all to resolve). */
  predicate AllAnswered(batches: seq<seq<ArtistId>>, api: seq<ArtistId> -> ArtistsReply)
  {
    forall j :: 0 <= j < |batches| ==> api(batches[j]).ArtistsOk?
  }

  function MapOfReply(reply: ArtistsReply): map<ArtistId, Artist>
  {
    match reply
    case ArtistsOk(artists) => ArtistMapOf(artists)
    case ArtistsFailed(_) => map[]
  }

  /** The batch maps Promise.all resolves with, in batch order. */
  function ResponseMaps(batches: seq<seq<ArtistId>>, api: seq<ArtistId> -> ArtistsReply): (ms: seq<map<ArtistId, Artist>>)
    ensures |ms| == |batches|
    ensures forall j :: 0 <= j < |batches| ==> ms[j] == MapOfReply(api(batches[j]))
  {
    seq(|batches|, j requires 0 <= j < |batches| => MapOfReply(api(batches[j])))
  }

  /**
   * getArtists. When every batch request is answered, the promise resolves
   * with the merged map; when any fails, Promise.all rejects, the `catch`
   * only logs, and the promise never settles. It is never rejected.
   */
  method GetArtists(artists: seq<ArtistId>, api: seq<ArtistId> -> ArtistsReply) returns (r: Outcome<map<ArtistId, Artist>>)
    ensures !r.Rejected?
    ensures r.Pending? <==> !AllAnswered(Batches(artists, ArtistsPerRequest), api)
    ensures r.Resolved? ==> r.value == MergeAll(ResponseMaps(Batches(artists, ArtistsPerRequest), api))
  {
    var batches := PartitionIds(artists);
    var responseArr: seq<map<ArtistId, Artist>> := [];
    for index := 0 to |batches|
      invariant |responseArr| == index
      invariant AllAnswered(batches[..index], api)
      invariant forall j :: 0 <= j < index ==> responseArr[j] == MapOfReply(api(batches[j]))
    {
      match api(batches[index])
      case ArtistsFailed(_) =>
        return Pending;
      case ArtistsOk(responseArtists) =>
        var artistJSONMap := BuildArtistMap(responseArtists);
        responseArr := responseArr + [artistJSONMap];
    }
    assert batches[..|batches|] == batches;
    var spotifyArtists := MergeBatchMaps(responseArr);
    assert responseArr == ResponseMaps(batches, api);
    r := Resolved(spotifyArtists);
  }

  // ---------------------------------------------------------------------------
  // What the merged map holds

  /** The merged map has a key exactly for each id some batch's answer carries, mapped to an artist with that id. */
  lemma MergedKeys(batches: seq<seq<ArtistId>>, api: seq<ArtistId> -> ArtistsReply, id: ArtistId)
    requires AllAnswered(batches, api)
    ensures id in MergeAll(ResponseMaps(batches, api))
        <==> exists j, a :: 0 <= j < |batches| && a in api(batches[j]).artists && a.id == id
    ensures id in MergeAll(ResponseMaps(batches, api)) ==> MergeAll(ResponseMaps(batches, api))[id].id == id
  {
    var ms := ResponseMaps(batches, api);
    MergeAllKeys(ms);
    if id in MergeAll(ms) {
      var j :| 0 <= j < |ms| && id in ms[j];
      ArtistMapOfKeys(api(batches[j]).artists);
      var i :| 0 <= i < |api(batches[j]).artists| && api(batches[j]).artists[i].id == id;
      assert api(batches[j]).artists[i] in api(batches[j]).artists;
      MergeAllFrom(ms, id);
      var j' :| 0 <= j' < |ms| && id in ms[j'] && MergeAll(ms)[id] == ms[j'][id];
      ArtistMapOfKeys(api(batches[j']).artists);
    }
    if exists j, a :: 0 <= j < |batches| && a in api(batches[j]).artists && a.id == id {
      var j, a :| 0 <= j < |batches| && a in api(batches[j]).artists && a.id == id;
      var i :| 0 <= i < |api(batches[j]).artists| && api(batches[j]).artists[i] == a;
      ArtistMapOfKeys(api(batches[j]).artists);
      assert id in ms[j];
    }
  }

  /** The API answers every batch, and with an artist for each id it was asked for. */
  predicate AnswersEveryId(batches: seq<seq<ArtistId>>, api: seq<ArtistId> -> ArtistsReply)
  {
    && AllAnswered(batches, api)
    && forall j, x :: 0 <= j < |batches| && x in batches[j] ==>
         exists a :: a in api(batches[j]).artists && a.id == x
  }

  /**
   * When the API answers every batch and returns an artist for every id asked
   * for, getArtists resolves and every requested id is a key of the merged
   * map, mapped to an artist with that id.
   */
  lemma RequestedIdsResolved(artists: seq<ArtistId>, api: seq<ArtistId> -> ArtistsReply, id: ArtistId)
    requires AnswersEveryId(Batches(artists, ArtistsPerRequest), api)
    requires id in artists
    ensures id in MergeAll(ResponseMaps(Batches(artists, ArtistsPerRequest), api))
    ensures MergeAll(ResponseMaps(Batches(artists, ArtistsPerRequest), api))[id].id == id
  {
    var batches := Batches(artists, ArtistsPerRequest);
    BatchesFlatten(artists, ArtistsPerRequest);
    InFlatten(batches, id);
    var j :| 0 <= j < |batches| && id in batches[j];
    var a :| a in api(batches[j]).artists && a.id == id;
    MergedKeys(batches, api, id);
  }

  /** Every artist in a batch's answer is one the batch asked for. */
  predicate AnswersOnlyAsked(batches: seq<seq<ArtistId>>, api: seq<ArtistId> -> ArtistsReply)
  {
    forall j, a :: 0 <= j < |batches| && api(batches[j]).ArtistsOk? && a in api(batches[j]).artists ==> a.id in batches[j]
  }

  /** With exact answers, an id is a merged key exactly when it was requested. */
  lemma ExactAnswerKey(artists: seq<ArtistId>, api: seq<ArtistId> -> ArtistsReply, id: ArtistId)
    requires AnswersEveryId(Batches(artists, ArtistsPerRequest), api)
    requires AnswersOnlyAsked(Batches(artists, ArtistsPerRequest), api)
    ensures id in MergeAll(ResponseMaps(Batches(artists, ArtistsPerRequest), api)) <==> id in artists
  {
    var batches := Batches(artists, ArtistsPerRequest);
    BatchesFlatten(artists, ArtistsPerRequest);
    MergedKeys(batches, api, id);
    InFlatten(batches, id);
    if id in artists {
      RequestedIdsResolved(artists, api, id);
    }
  }

  /** The set-valued form of ExactAnswerKey. */
  lemma ExactKeySet(artists: seq<ArtistId>, api: seq<ArtistId> -> ArtistsReply)
    requires AnswersEveryId(Batches(artists, ArtistsPerRequest), api)
    requires AnswersOnlyAsked(Batches(artists, ArtistsPerRequest), api)
    ensures MergeAll(ResponseMaps(Batches(artists, ArtistsPerRequest), api)).Keys == set x | x in artists
  {
    var m := MergeAll(ResponseMaps(Batches(artists, ArtistsPerRequest), api));
    forall id
      ensures id in m <==> id in artists
    {
      ExactAnswerKey(artists, api, id);
    }
  }

  /**
   * When each answer holds exactly the artists asked for, the merged map's
   * keys are exactly the requested ids, so K distinct ids give K entries.
   */
  lemma ExactAnswersGiveExactKeys(artists: seq<ArtistId>, api: seq<ArtistId> -> ArtistsReply)
    requires AnswersEveryId(Batches(artists, ArtistsPerRequest), api)
    requires AnswersOnlyAsked(Batches(artists, ArtistsPerRequest), api)
    ensures MergeAll(ResponseMaps(Batches(artists, ArtistsPerRequest), api)).Keys == set x | x in artists
    ensures Distinct(artists) ==> |MergeAll(ResponseMaps(Batches(artists, ArtistsPerRequest), api))| == |artists|
  {
    var m := MergeAll(ResponseMaps(Batches(artists, ArtistsPerRequest), api));
    ExactKeySet(artists, api);
    assert |m| == |m.Keys|;
    if Distinct(artists) {
      DistinctCardinality(artists);
    }
  }

  ghost predicate Distinct<T>(s: seq<T>)
  {
    forall i, j :: 0 <= i < j < |s| ==> s[i] != s[j]
  }

  /** A sequence without repeats has as many distinct elements as it is long. */
  lemma {:induction false} DistinctCardinality<T>(s: seq<T>)
    requires Distinct(s)
    ensures |set x | x in s| == |s|
    decreases |s|
  {
    if s != [] {
      var init := s[..|s| - 1];
      DistinctCardinality(init);
      assert (set x | x in s) == (set x | x in init) + {s[|s| - 1]};
      forall i | 0 <= i < |init|
        ensures init[i] != s[|s| - 1]
      {
        assert init[i] == s[i];
      }
    }
  }
}
