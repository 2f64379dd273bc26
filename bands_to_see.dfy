/**
 * getBandsToSee of models/topArtists.js: after the credential check and the
 * playlist request, one band record is pushed per track, each track's first
 * artist id is indexed to the positions of the tracks that carry it, the
 * index's keys are fetched with getArtists, and the fetched artists are
 * joined back onto every recorded position.
 */
module BandsToSee {
  import opened SpotifyTypes
  import opened ArtistBatches
  import Credentials

  // ---------------------------------------------------------------------------
  // Specification functions

  /** The band record pushed for a track, before any artist is attached. */
  function BandOf(t: Track): Band
  {
    Band(t.name, t.id, t.externalUrls, None)
  }

  /** Every track lists at least one artist, so `track.artists[0].id` can be read. */
  predicate AllAttributed(tracks: seq<Track>)
  {
    forall i :: 0 <= i < |tracks| ==> tracks[i].artistIds != []
  }

  /** The first artist id of every track, in track order. */
  function PrimaryIds(tracks: seq<Track>): (ids: seq<ArtistId>)
    requires AllAttributed(tracks)
    ensures |ids| == |tracks|
    ensures forall i :: 0 <= i < |tracks| ==> ids[i] == tracks[i].artistIds[0]
  {
    seq(|tracks|, i requires 0 <= i < |tracks| => tracks[i].artistIds[0])
  }

  /**
   * The distinct elements of `s` in order of first appearance: the order in
   * which properties are inserted into an object, which Object.keys returns.
   */
  function FirstSeen(s: seq<ArtistId>): seq<ArtistId>
    decreases |s|
  {
    if s == [] then []
    else if s[|s| - 1] in FirstSeen(s[..|s| - 1]) then FirstSeen(s[..|s| - 1])
    else FirstSeen(s[..|s| - 1]) + [s[|s| - 1]]
  }

  /** FirstSeen keeps exactly the elements of its input, each once. */
  lemma {:induction false} FirstSeenElements(s: seq<ArtistId>)
    ensures forall x :: x in FirstSeen(s) <==> x in s
    ensures Distinct(FirstSeen(s))
    decreases |s|
  {
    if s != [] {
      var init := s[..|s| - 1];
      FirstSeenElements(init);
      assert s == init + [s[|s| - 1]];
    }
  }

  /** The position of the first occurrence of x in s. */
  function FirstIndex(s: seq<ArtistId>, x: ArtistId): (i: nat)
    requires x in s
    ensures i < |s| && s[i] == x
    ensures forall j :: 0 <= j < i ==> s[j] != x
  {
    if s[0] == x then 0 else 1 + FirstIndex(s[1..], x)
  }

  lemma {:induction false} FirstIndexOfPrefix(s: seq<ArtistId>, x: ArtistId, n: nat)
    requires n <= |s| && x in s[..n]
    ensures x in s && FirstIndex(s, x) == FirstIndex(s[..n], x)
  {
    var i := FirstIndex(s[..n], x);
    assert s[i] == x;
    forall j | 0 <= j < i
      ensures s[j] != x
    {
      assert s[j] == s[..n][j];
    }
  }

  /**
   * One more element extends FirstSeen of the prefix: the old keys stay in
   * place, and a new key is added at the end only if it was not seen before.
   */
  lemma FirstSeenExtends(s: seq<ArtistId>)
    requires s != []
    ensures var fs := FirstSeen(s[..|s| - 1]);
      && |fs| <= |FirstSeen(s)|
      && (forall i :: 0 <= i < |fs| ==> FirstSeen(s)[i] == fs[i])
      && (|fs| < |FirstSeen(s)| ==>
            |FirstSeen(s)| == |fs| + 1 && FirstSeen(s)[|fs|] == s[|s| - 1] && s[|s| - 1] !in s[..|s| - 1])
  {
    FirstSeenElements(s[..|s| - 1]);
  }

  /** FirstSeen lists the elements in the order of their first occurrences. */
  lemma {:induction false} FirstSeenOrder(s: seq<ArtistId>, a: nat, b: nat)
    requires a < b < |FirstSeen(s)|
    ensures FirstSeen(s)[a] in s && FirstSeen(s)[b] in s
    ensures FirstIndex(s, FirstSeen(s)[a]) < FirstIndex(s, FirstSeen(s)[b])
    decreases |s|
  {
    var init := s[..|s| - 1];
    var last := s[|s| - 1];
    var fs := FirstSeen(init);
    FirstSeenExtends(s);
    FirstSeenElements(init);
    var x, y := FirstSeen(s)[a], FirstSeen(s)[b];
    assert x == fs[a] && fs[a] in fs;
    FirstIndexOfPrefix(s, x, |s| - 1);
    if b < |fs| {
      FirstSeenOrder(init, a, b);
      assert y == fs[b] && fs[b] in fs;
      FirstIndexOfPrefix(s, y, |s| - 1);
    } else {
      assert y == last;
      forall j | 0 <= j < |s| - 1
        ensures s[j] != last
      {
        assert s[j] == init[j];
      }
    }
  }

  /**
   * What getBandsToSee resolves with once the playlist has arrived: Pending
   * when a track lists no artist (reading `track.artists[0].id` throws in a
   * callback nobody awaits) or when an artist batch fails (getArtists never
   * settles); otherwise every track's band, in playlist order, carrying the
   * fetched artist of the track's first artist id (None when the merged map
   * lacks it).
   */
  function BandsToSeeSpec(tracks: seq<Track>, api: seq<ArtistId> -> ArtistsReply): Outcome<seq<Band>>
  {
    if !AllAttributed(tracks) then Pending
    else
      var ids := PrimaryIds(tracks);
      var batches := Batches(FirstSeen(ids), ArtistsPerRequest);
      if !AllAnswered(batches, api) then Pending
      else
        var artists := MergeAll(ResponseMaps(batches, api));
        Resolved(seq(|tracks|, i requires 0 <= i < |tracks| => BandOf(tracks[i]).(artist := Get(artists, ids[i]))))
  }

  // ---------------------------------------------------------------------------
  // Index building

  /** Strictly increasing positions. */
  predicate Increasing(ps: seq<nat>)
  {
    forall a, b :: 0 <= a < b < |ps| ==> ps[a] < ps[b]
  }

  /**
   * The locals the track loop builds: `bandsToSee`, the dictionary
   * `artistIDToBandToSeeIndex`, and its keys in insertion order.
   */
  datatype Lookup = Lookup(bands: seq<Band>, index: map<ArtistId, seq<nat>>, keys: seq<ArtistId>)

  /**
   * What the track loop has built after the first n tracks: all of them list
   * an artist, the keys are their first artist ids in first-seen order, and
   * the index lists, increasingly, each position under its track's first
   * artist id and nowhere else.
   */
  ghost predicate IndexedUpTo(tracks: seq<Track>, n: nat, index: map<ArtistId, seq<nat>>, keys: seq<ArtistId>)
  {
    && n <= |tracks|
    && AllAttributed(tracks[..n])
    && keys == FirstSeen(PrimaryIds(tracks[..n]))
    && (forall k :: k in index <==> k in keys)
    && (forall k, p {:trigger p in index[k]} :: k in index && p in index[k] ==>
          p < n && tracks[p].artistIds != [] && tracks[p].artistIds[0] == k)
    && (forall p :: 0 <= p < n ==>
          tracks[p].artistIds != [] && tracks[p].artistIds[0] in index && p in index[tracks[p].artistIds[0]])
    && (forall k :: k in index ==> Increasing(index[k]))
  }

  /** How the track loop records track n under its first artist id `id`. */
  ghost predicate Recorded(index: map<ArtistId, seq<nat>>, keys: seq<ArtistId>, id: ArtistId, n: nat,
                           index': map<ArtistId, seq<nat>>, keys': seq<ArtistId>)
  {
    if id !in index then index' == index[id := [n]] && keys' == keys + [id]
    else index' == index[id := index[id] + [n]] && keys' == keys
  }

  /** The keys after recording track n are the first-seen first artist ids of tracks 0..n. */
  lemma RecordedKeys(tracks: seq<Track>, n: nat, index: map<ArtistId, seq<nat>>, keys: seq<ArtistId>,
                     index': map<ArtistId, seq<nat>>, keys': seq<ArtistId>)
    requires IndexedUpTo(tracks, n, index, keys)
    requires n < |tracks| && tracks[n].artistIds != []
    requires Recorded(index, keys, tracks[n].artistIds[0], n, index', keys')
    ensures AllAttributed(tracks[..n + 1])
    ensures keys' == FirstSeen(PrimaryIds(tracks[..n + 1]))
    ensures forall k :: k in index' <==> k in keys'
  {
    var id := tracks[n].artistIds[0];
    assert tracks[..n + 1] == tracks[..n] + [tracks[n]];
    assert AllAttributed(tracks[..n + 1]);
    var before := PrimaryIds(tracks[..n]);
    assert PrimaryIds(tracks[..n + 1]) == before + [id];
    assert (before + [id])[..|before|] == before;
  }

  /** After recording track n, each position is listed exactly under its track's first artist id. */
  lemma RecordedPositions(tracks: seq<Track>, n: nat, index: map<ArtistId, seq<nat>>, keys: seq<ArtistId>,
                          index': map<ArtistId, seq<nat>>, keys': seq<ArtistId>)
    requires IndexedUpTo(tracks, n, index, keys)
    requires n < |tracks| && tracks[n].artistIds != []
    requires Recorded(index, keys, tracks[n].artistIds[0], n, index', keys')
    ensures forall k, p {:trigger p in index'[k]} :: k in index' && p in index'[k] ==>
      p < n + 1 && tracks[p].artistIds != [] && tracks[p].artistIds[0] == k
    ensures forall p :: 0 <= p < n + 1 ==>
      tracks[p].artistIds != [] && tracks[p].artistIds[0] in index' && p in index'[tracks[p].artistIds[0]]
  {
    var id := tracks[n].artistIds[0];
    forall k, p | k in index' && p in index'[k]
      ensures p < n + 1 && tracks[p].artistIds != [] && tracks[p].artistIds[0] == k
    {
      if k != id || p != n {
        assert k in index && p in index[k];
      }
    }
  }

  /** Recording track n after tracks 0..n-1 keeps every list increasing. */
  lemma RecordedIncreasing(tracks: seq<Track>, n: nat, index: map<ArtistId, seq<nat>>, keys: seq<ArtistId>,
                           index': map<ArtistId, seq<nat>>, keys': seq<ArtistId>)
    requires IndexedUpTo(tracks, n, index, keys)
    requires n < |tracks| && tracks[n].artistIds != []
    requires Recorded(index, keys, tracks[n].artistIds[0], n, index', keys')
    ensures forall k :: k in index' ==> Increasing(index'[k])
  {
    var id := tracks[n].artistIds[0];
    if id in index {
      forall q | 0 <= q < |index[id]|
        ensures index[id][q] < n
      {
        assert index[id][q] in index[id];
      }
    }
  }

  /** Recording track n under its first artist id keeps the index invariant. */
  lemma IndexStep(tracks: seq<Track>, n: nat, index: map<ArtistId, seq<nat>>, keys: seq<ArtistId>,
                  index': map<ArtistId, seq<nat>>, keys': seq<ArtistId>)
    requires IndexedUpTo(tracks, n, index, keys)
    requires n < |tracks| && tracks[n].artistIds != []
    requires Recorded(index, keys, tracks[n].artistIds[0], n, index', keys')
    ensures IndexedUpTo(tracks, n + 1, index', keys')
  {
    RecordedKeys(tracks, n, index, keys, index', keys');
    RecordedPositions(tracks, n, index, keys, index', keys');
    RecordedIncreasing(tracks, n, index, keys, index', keys');
  }

  /**
   * The track loop of getBandsToSee. None when some track lists no artist
   * (the loop throws there). Otherwise one band per track, in order, with the
   * track's title, id and URLs; one index key per distinct first-artist id,
   * with keys in first-seen order; position p listed under key k exactly when
   * track p's first artist is k; each list increasing.
   */
  method BuildLookup(tracks: seq<Track>) returns (r: Option<Lookup>)
    ensures r.None? <==> !AllAttributed(tracks)
    ensures r.Some? ==>
      && |r.value.bands| == |tracks|
      && (forall i :: 0 <= i < |tracks| ==> r.value.bands[i] == BandOf(tracks[i]))
      && r.value.keys == FirstSeen(PrimaryIds(tracks))
      && (forall k :: k in r.value.index <==> k in r.value.keys)
      && (forall k, p {:trigger p in r.value.index[k]} :: k in r.value.index && p in r.value.index[k] ==>
            p < |tracks| && PrimaryIds(tracks)[p] == k)
      && (forall p :: 0 <= p < |tracks| ==> PrimaryIds(tracks)[p] in r.value.index && p in r.value.index[PrimaryIds(tracks)[p]])
      && (forall k :: k in r.value.index ==> Increasing(r.value.index[k]))
  {
    var bandsToSee: seq<Band> := [];
    var artistIDToBandToSeeIndex: map<ArtistId, seq<nat>> := map[];
    var keys: seq<ArtistId> := [];
    for trackNumber := 0 to |tracks|
      invariant |bandsToSee| == trackNumber
      invariant forall i :: 0 <= i < trackNumber ==> bandsToSee[i] == BandOf(tracks[i])
      invariant IndexedUpTo(tracks, trackNumber, artistIDToBandToSeeIndex, keys)
    {
      var track := tracks[trackNumber];
      bandsToSee := bandsToSee + [BandOf(track)];
      if track.artistIds == [] {
        // `track.artists[0].id` reads a property of undefined.
        return None;
      }
      var id := track.artistIds[0];
      ghost var index, keys0 := artistIDToBandToSeeIndex, keys;
      if id !in artistIDToBandToSeeIndex {
        artistIDToBandToSeeIndex := artistIDToBandToSeeIndex[id := [trackNumber]];
        keys := keys + [id];
      } else {
        artistIDToBandToSeeIndex := artistIDToBandToSeeIndex[id := artistIDToBandToSeeIndex[id] + [trackNumber]];
      }
      IndexStep(tracks, trackNumber, index, keys0, artistIDToBandToSeeIndex, keys);
    }
    assert tracks[..|tracks|] == tracks;
    r := Some(Lookup(bandsToSee, artistIDToBandToSeeIndex, keys));
  }

  // ---------------------------------------------------------------------------
  // The join

  /**
   * The nested join loop: for each key, every band at a position listed under
   * it gets `artist = artists[key]` (None when the key is missing). Bands at
   * unlisted positions, and every other field, are left as they are. The
   * index the track loop builds lists each position under a single key.
   */
  method AttachArtists(bands: seq<Band>, keys: seq<ArtistId>, index: map<ArtistId, seq<nat>>, artists: map<ArtistId, Artist>)
      returns (joined: seq<Band>)
    requires forall k :: k in keys ==> k in index
    requires forall k, p :: k in index && p in index[k] ==> p < |bands|
    requires forall k1, k2, p :: k1 in index && k2 in index && p in index[k1] && p in index[k2] ==> k1 == k2
    ensures |joined| == |bands|
    ensures forall k, p :: k in keys && p in index[k] ==> joined[p] == bands[p].(artist := Get(artists, k))
    ensures forall p :: 0 <= p < |bands| && (forall k :: k in keys ==> p !in index[k]) ==> joined[p] == bands[p]
  {
    joined := bands;
    for a := 0 to |keys|
      invariant |joined| == |bands|
      invariant forall k, p :: k in keys[..a] && p in index[k] ==> joined[p] == bands[p].(artist := Get(artists, k))
      invariant forall p :: 0 <= p < |bands| && (forall k :: k in keys[..a] ==> p !in index[k]) ==> joined[p] == bands[p]
    {
      var artistToSeeID := keys[a];
      var positions := index[artistToSeeID];
      assert forall q :: 0 <= q < |positions| ==> positions[q] in index[artistToSeeID];
      assert keys[..a + 1] == keys[..a] + [artistToSeeID];
      for b := 0 to |positions|
        invariant |joined| == |bands|
        invariant forall k, p :: k in keys[..a] && p in index[k] ==> joined[p] == bands[p].(artist := Get(artists, k))
        invariant forall q :: 0 <= q < b ==> joined[positions[q]] == bands[positions[q]].(artist := Get(artists, artistToSeeID))
        invariant forall p :: 0 <= p < |bands| && (forall k :: k in keys[..a] ==> p !in index[k]) && p !in positions[..b] ==>
          joined[p] == bands[p]
      {
        var bandToSeeIndex := positions[b];
        joined := joined[bandToSeeIndex := joined[bandToSeeIndex].(artist := Get(artists, artistToSeeID))];
        assert positions[..b + 1] == positions[..b] + [bandToSeeIndex];
      }
      assert positions[..|positions|] == positions;
      forall p | p in index[artistToSeeID]
        ensures joined[p] == bands[p].(artist := Get(artists, artistToSeeID))
      {
        var q :| 0 <= q < |positions| && positions[q] == p;
      }
    }
    assert keys[..|keys|] == keys;
  }

  // ---------------------------------------------------------------------------
  // The whole local computation and the whole call

  /**
   * The part of getBandsToSee after the playlist has arrived: index the
   * tracks, fetch the index's keys, join. It agrees with BandsToSeeSpec.
   */
  method Aggregate(tracks: seq<Track>, api: seq<ArtistId> -> ArtistsReply) returns (r: Outcome<seq<Band>>)
    ensures r == BandsToSeeSpec(tracks, api)
  {
    var lookup := BuildLookup(tracks);
    if lookup.None? {
      return Pending;
    }
    var bandsToSee, index, keys := lookup.value.bands, lookup.value.index, lookup.value.keys;
    ghost var ids := PrimaryIds(tracks);
    assert forall k :: k in keys ==> k in index;
    assert forall k, p :: k in index && p in index[k] ==> p < |bandsToSee|;
    assert forall k1, k2, p :: k1 in index && k2 in index && p in index[k1] && p in index[k2] ==> k1 == k2;
    var fetched := GetArtists(keys, api);
    if fetched.Pending? {
      return Pending;
    }
    var artists := fetched.value;
    var joined := AttachArtists(bandsToSee, keys, index, artists);
    ghost var expected := seq(|tracks|, i requires 0 <= i < |tracks| => BandOf(tracks[i]).(artist := Get(artists, ids[i])));
    forall i | 0 <= i < |tracks|
      ensures joined[i] == expected[i]
    {
      assert ids[i] in keys && i in index[ids[i]];
    }
    assert joined == expected;
    r := Resolved(joined);
  }

  /**
   * getBandsToSee: check the credential at `now` (a due refresh's grant
   * answers at `grantTime`), fetch the playlist, then aggregate. A failed
   * grant rejects with AuthError, a failed playlist request with
   * PlaylistFetchError; a failed artist batch leaves the call pending.
   */
  method GetBandsToSee(tm: Credentials.TokenManager, now: int, grantTime: int, grant: Grant,
                       playlist: PlaylistReply, api: seq<ArtistId> -> ArtistsReply)
      returns (r: Outcome<seq<Band>>)
    modifies tm
    ensures Credentials.NeedsRefresh(old(tm.expiry), now) ==>
      && tm.grantsRequested == old(tm.grantsRequested) + 1
      && (grant.Granted? ==>
            && tm.expiry == Credentials.GrantedExpiry(grantTime, grant.expiresIn, tm.margin)
            && tm.accessToken == Some(grant.accessToken))
      && (grant.GrantFailed? ==>
            && tm.expiry == old(tm.expiry) && tm.accessToken == old(tm.accessToken)
            && r == Rejected(AuthError(grant.err)))
    ensures !Credentials.NeedsRefresh(old(tm.expiry), now) ==>
      && tm.expiry == old(tm.expiry) && tm.accessToken == old(tm.accessToken)
      && tm.grantsRequested == old(tm.grantsRequested)
    ensures (!Credentials.NeedsRefresh(old(tm.expiry), now) || grant.Granted?) ==>
      r == match playlist
           case PlaylistFailed(err) => Rejected(PlaylistFetchError(err))
           case PlaylistOk(tracks) => BandsToSeeSpec(tracks, api)
  {
    var auth := tm.HandleCredentials(now, grantTime, grant);
    if auth.Rejected? {
      return Rejected(auth.error);
    }
    match playlist
    case PlaylistFailed(err) =>
      r := Rejected(PlaylistFetchError(err));
    case PlaylistOk(tracks) =>
      r := Aggregate(tracks, api);
  }

  // ---------------------------------------------------------------------------
  // Properties of the result

  /**
   * A resolved result has one band per track, in playlist order, with the
   * title, track id and URLs copied from that track.
   */
  lemma ResolvedBandsFollowPlaylist(tracks: seq<Track>, api: seq<ArtistId> -> ArtistsReply)
    requires BandsToSeeSpec(tracks, api).Resolved?
    ensures |BandsToSeeSpec(tracks, api).value| == |tracks|
    ensures forall i :: 0 <= i < |tracks| ==>
      var band := BandsToSeeSpec(tracks, api).value[i];
      band.trackTitle == tracks[i].name && band.sourceTrackId == tracks[i].id
      && band.externalUrls == tracks[i].externalUrls
  {
  }

  /**
   * When every track lists an artist and the API answers every batch with an
   * artist for each id asked for, the call resolves and every band carries an
   * artist, the one whose id is its track's first artist id.
   */
  lemma EveryBandGetsItsArtist(tracks: seq<Track>, api: seq<ArtistId> -> ArtistsReply)
    requires AllAttributed(tracks)
    requires AnswersEveryId(Batches(FirstSeen(PrimaryIds(tracks)), ArtistsPerRequest), api)
    ensures BandsToSeeSpec(tracks, api).Resolved?
    ensures forall i :: 0 <= i < |tracks| ==>
      && BandsToSeeSpec(tracks, api).value[i].artist.Some?
      && BandsToSeeSpec(tracks, api).value[i].artist.value.id == tracks[i].artistIds[0]
  {
    var ids := PrimaryIds(tracks);
    var keys := FirstSeen(ids);
    FirstSeenElements(ids);
    forall i | 0 <= i < |tracks|
      ensures BandsToSeeSpec(tracks, api).value[i].artist.Some?
      ensures BandsToSeeSpec(tracks, api).value[i].artist.value.id == tracks[i].artistIds[0]
    {
      assert ids[i] in ids;
      RequestedIdsResolved(keys, api, ids[i]);
    }
  }

  /** The call never rejects once the playlist has arrived: artist failures are not reported. */
  lemma NoArtistFetchError(tracks: seq<Track>, api: seq<ArtistId> -> ArtistsReply)
    ensures !BandsToSeeSpec(tracks, api).Rejected?
  {
  }

  /** The first-seen keys of the first artist ids A, A, B. */
  lemma FirstSeenOfAAB()
    ensures FirstSeen(["A", "A", "B"]) == ["A", "B"]
  {
    var ids: seq<ArtistId> := ["A", "A", "B"];
    assert ids[..2] == ["A", "A"] && ids[..2][..1] == ["A"];
    assert FirstSeen(ids[..2][..1]) == ["A"];
    assert FirstSeen(ids[..2]) == ["A"];
  }

  /** One answered batch [A, B] merges to the map A -> a, B -> b. */
  lemma MergeOfOneBatch(a: Artist, b: Artist, api: seq<ArtistId> -> ArtistsReply)
    requires a.id == "A" && b.id == "B"
    requires api(["A", "B"]) == ArtistsOk([a, b])
    ensures Batches(["A", "B"], ArtistsPerRequest) == [["A", "B"]]
    ensures AllAnswered([["A", "B"]], api)
    ensures MergeAll(ResponseMaps([["A", "B"]], api)) == map["A" := a, "B" := b]
  {
    assert ["A", "B"][..2] == ["A", "B"] && ["A", "B"][2..] == [];
    var ms := ResponseMaps([["A", "B"]], api);
    assert [a, b][..1] == [a] && [a][..0] == [];
    assert ArtistMapOf([a]) == map["A" := a];
    assert ArtistMapOf([a, b]) == map["A" := a, "B" := b];
    assert ms == [map["A" := a, "B" := b]];
    assert ms[..0] == [];
  }

  /**
   * Three tracks by artists A, A and B: one request for [A, B], and tracks 0
   * and 1 carry A's record while track 2 carries B's.
   */
  lemma SharedArtistScenario(a: Artist, b: Artist, api: seq<ArtistId> -> ArtistsReply)
    requires a.id == "A" && b.id == "B"
    requires api(["A", "B"]) == ArtistsOk([a, b])
    ensures var tracks := [Track("t0", "0", map[], ["A"]), Track("t1", "1", map[], ["A", "C"]), Track("t2", "2", map[], ["B"])];
      && FirstSeen(PrimaryIds(tracks)) == ["A", "B"]
      && Batches(FirstSeen(PrimaryIds(tracks)), ArtistsPerRequest) == [["A", "B"]]
      && BandsToSeeSpec(tracks, api)
         == Resolved([Band("t0", "0", map[], Some(a)), Band("t1", "1", map[], Some(a)), Band("t2", "2", map[], Some(b))])
  {
    var tracks := [Track("t0", "0", map[], ["A"]), Track("t1", "1", map[], ["A", "C"]), Track("t2", "2", map[], ["B"])];
    assert AllAttributed(tracks);
    assert PrimaryIds(tracks) == ["A", "A", "B"];
    FirstSeenOfAAB();
    MergeOfOneBatch(a, b, api);
    var expected := [Band("t0", "0", map[], Some(a)), Band("t1", "1", map[], Some(a)), Band("t2", "2", map[], Some(b))];
    var spec := BandsToSeeSpec(tracks, api);
    assert spec.Resolved? && |spec.value| == 3;
    assert spec.value[0] == expected[0];
    assert spec.value[1] == expected[1];
    assert spec.value[2] == expected[2];
    assert spec.value == expected;
  }
}
