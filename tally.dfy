/** Like counts: totals over songs and artists, and the likes of the songs an
    artist owns, given each song's owning artist. */
module Tally {
  import opened Domain

  function SumSongLikes(songs: seq<Song>): int {
    if |songs| == 0 then 0
    else SumSongLikes(songs[..|songs| - 1]) + songs[|songs| - 1].likes
  }

  function SumArtistLikes(artists: seq<Artist>): int {
    if |artists| == 0 then 0
    else SumArtistLikes(artists[..|artists| - 1]) + artists[|artists| - 1].likes
  }

  /** The likes of the songs whose owner (`owners[s]` for song `s`) is artist `a`. */
  function OwnedLikes(songs: seq<Song>, owners: seq<ArtistRef>, a: ArtistRef): int
    requires |owners| == |songs|
  {
    if |songs| == 0 then 0
    else
      var last := |songs| - 1;
      OwnedLikes(songs[..last], owners[..last], a) + (if owners[last] == a then songs[last].likes else 0)
  }

  /** The owned likes of artists 0 .. n-1 added up. */
  function SumOwned(songs: seq<Song>, owners: seq<ArtistRef>, n: nat): int
    requires |owners| == |songs|
  {
    if n == 0 then 0 else SumOwned(songs, owners, n - 1) + OwnedLikes(songs, owners, n - 1)
  }

  /** An artist that owns no song has no owned likes. */
  lemma {:induction false} OwnedLikesUnowned(songs: seq<Song>, owners: seq<ArtistRef>, a: ArtistRef)
    requires |owners| == |songs|
    requires forall s :: 0 <= s < |owners| ==> owners[s] != a
    ensures OwnedLikes(songs, owners, a) == 0
    decreases |songs|
  {
    if |songs| != 0 {
      var last := |songs| - 1;
      OwnedLikesUnowned(songs[..last], owners[..last], a);
    }
  }

  /** A song appended with its owner adds its likes to that owner only. */
  lemma OwnedLikesAppend(songs: seq<Song>, owners: seq<ArtistRef>, x: Song, o: ArtistRef, a: ArtistRef)
    requires |owners| == |songs|
    ensures OwnedLikes(songs + [x], owners + [o], a) ==
            OwnedLikes(songs, owners, a) + (if o == a then x.likes else 0)
  {
    assert (songs + [x])[..|songs|] == songs;
    assert (owners + [o])[..|owners|] == owners;
  }

  /** One more like on song `s` is one more owned like for its owner only. */
  lemma {:induction false} OwnedLikesBump(songs: seq<Song>, owners: seq<ArtistRef>, s: SongRef, a: ArtistRef)
    requires |owners| == |songs| && s < |songs|
    ensures OwnedLikes(songs[s := songs[s].(likes := songs[s].likes + 1)], owners, a) ==
            OwnedLikes(songs, owners, a) + (if owners[s] == a then 1 else 0)
    decreases |songs|
  {
    var songs' := songs[s := songs[s].(likes := songs[s].likes + 1)];
    var last := |songs| - 1;
    if s < last {
      assert songs'[..last] == songs[..last][s := songs[s].(likes := songs[s].likes + 1)];
      OwnedLikesBump(songs[..last], owners[..last], s, a);
    } else {
      assert songs'[..last] == songs[..last];
    }
  }

  /** Splitting off the last song of the tally over artists 0 .. n-1. */
  lemma {:induction false} SumOwnedAppend(songs: seq<Song>, owners: seq<ArtistRef>, x: Song, o: ArtistRef, n: nat)
    requires |owners| == |songs|
    ensures SumOwned(songs + [x], owners + [o], n) ==
            SumOwned(songs, owners, n) + (if o < n then x.likes else 0)
    decreases n
  {
    if n != 0 {
      SumOwnedAppend(songs, owners, x, o, n - 1);
      OwnedLikesAppend(songs, owners, x, o, n - 1);
    }
  }

  /** When every song is owned by one of artists 0 .. n-1, their owned likes
      add up to all song likes. */
  lemma {:induction false} SumOwnedIsSumSongLikes(songs: seq<Song>, owners: seq<ArtistRef>, n: nat)
    requires |owners| == |songs|
    requires forall s :: 0 <= s < |owners| ==> owners[s] < n
    ensures SumOwned(songs, owners, n) == SumSongLikes(songs)
    decreases |songs|
  {
    if |songs| == 0 {
      SumOwnedEmpty(songs, owners, n);
    } else {
      var last := |songs| - 1;
      assert songs == songs[..last] + [songs[last]];
      assert owners == owners[..last] + [owners[last]];
      SumOwnedIsSumSongLikes(songs[..last], owners[..last], n);
      SumOwnedAppend(songs[..last], owners[..last], songs[last], owners[last], n);
    }
  }

  lemma {:induction false} SumOwnedEmpty(songs: seq<Song>, owners: seq<ArtistRef>, n: nat)
    requires |owners| == |songs| == 0
    ensures SumOwned(songs, owners, n) == 0
    decreases n
  {
    if n != 0 {
      SumOwnedEmpty(songs, owners, n - 1);
    }
  }

  /** Artists whose likes are their owned likes have, together, the owned
      likes of all of them. */
  lemma {:induction false} SumArtistLikesIsSumOwned(artists: seq<Artist>, songs: seq<Song>, owners: seq<ArtistRef>)
    requires |owners| == |songs|
    requires forall a :: 0 <= a < |artists| ==> artists[a].likes == OwnedLikes(songs, owners, a)
    ensures SumArtistLikes(artists) == SumOwned(songs, owners, |artists|)
    decreases |artists|
  {
    if |artists| != 0 {
      var last := |artists| - 1;
      SumArtistLikesIsSumOwned(artists[..last], songs, owners);
    }
  }

  /** Conservation of likes: when every artist's likes are the likes of the
      songs it owns, and every song has an owner among the artists, the
      artists' likes and the songs' likes have the same total. */
  lemma LikesConserved(artists: seq<Artist>, songs: seq<Song>, owners: seq<ArtistRef>)
    requires |owners| == |songs|
    requires forall s :: 0 <= s < |owners| ==> owners[s] < |artists|
    requires forall a :: 0 <= a < |artists| ==> artists[a].likes == OwnedLikes(songs, owners, a)
    ensures SumArtistLikes(artists) == SumSongLikes(songs)
  {
    SumArtistLikesIsSumOwned(artists, songs, owners);
    SumOwnedIsSumSongLikes(songs, owners, |artists|);
  }
}
