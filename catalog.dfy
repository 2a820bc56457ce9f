/** The searches the repository runs over its entity lists: first match by
    key, the song selections that fill a new playlist, and the
    first-strict-maximum scan behind the popularity queries. */
module Catalog {
  import opened Domain

  /** Index of the first key equal to `key`: a linear scan where the first
      match wins. */
  function FirstIndexOf(keys: seq<string>, key: string): (r: Option<nat>)
    ensures r.Some? ==> r.value < |keys| && keys[r.value] == key
    ensures r.Some? ==> forall j :: 0 <= j < r.value ==> keys[j] != key
    ensures r.None? <==> forall j :: 0 <= j < |keys| ==> keys[j] != key
    decreases |keys|
  {
    if |keys| == 0 then None
    else if keys[0] == key then Some(0)
    else match FirstIndexOf(keys[1..], key)
      case None => None
      case Some(i) => Some(i + 1)
  }

  /** The `for ... if equals ... break` loop the repository writes out for
      every lookup. */
  method FindFirst(keys: seq<string>, key: string) returns (r: Option<nat>)
    ensures r == FirstIndexOf(keys, key)
  {
    var i := 0;
    while i < |keys|
      invariant 0 <= i <= |keys|
      invariant forall j :: 0 <= j < i ==> keys[j] != key
    {
      if keys[i] == key {
        return Some(i);
      }
      i := i + 1;
    }
    return None;
  }

  /** The catalog songs whose length is exactly `length`, in catalog order. */
  function SongsOfLength(songs: seq<Song>, length: int): seq<SongRef> {
    if |songs| == 0 then []
    else
      var last := |songs| - 1;
      SongsOfLength(songs[..last], length) + (if songs[last].length == length then [last] else [])
  }

  /** A by-length playlist holds exactly the catalog songs of that length,
      each once and in catalog order. */
  lemma {:induction false} SongsOfLengthMembers(songs: seq<Song>, length: int)
    ensures var r := SongsOfLength(songs, length);
      (forall k :: 0 <= k < |r| ==> r[k] < |songs| && songs[r[k]].length == length) &&
      (forall i :: 0 <= i < |songs| && songs[i].length == length ==> i in r) &&
      (forall k, l :: 0 <= k < l < |r| ==> r[k] < r[l])
    decreases |songs|
  {
    if |songs| != 0 {
      var last := |songs| - 1;
      var front := SongsOfLength(songs[..last], length);
      SongsOfLengthMembers(songs[..last], length);
      var r := SongsOfLength(songs, length);
      assert r == front + (if songs[last].length == length then [last] else []);
      forall i | 0 <= i < |songs| && songs[i].length == length
        ensures i in r
      {
        if i < last {
          assert songs[..last][i] == songs[i];
          assert i in front;
        } else {
          assert r[|r| - 1] == last;
        }
      }
    }
  }

  /** A by-length selection is empty exactly when no catalog song has that
      length. */
  lemma {:induction false} SongsOfLengthEmpty(songs: seq<Song>, length: int)
    ensures SongsOfLength(songs, length) == [] <==>
            forall i :: 0 <= i < |songs| ==> songs[i].length != length
    decreases |songs|
  {
    if |songs| != 0 {
      var last := |songs| - 1;
      SongsOfLengthEmpty(songs[..last], length);
      assert forall i :: 0 <= i < last ==> songs[..last][i] == songs[i];
    }
  }

  /** Scanning one more catalog song. */
  lemma SongsOfLengthStep(songs: seq<Song>, length: int, i: nat)
    requires i < |songs|
    ensures SongsOfLength(songs[..i + 1], length) ==
            SongsOfLength(songs[..i], length) + (if songs[i].length == length then [i] else [])
  {
    assert songs[..i + 1][..i] == songs[..i];
  }

  /** The catalog songs titled `title`, in catalog order. */
  function SongsTitled(songs: seq<Song>, title: string): seq<SongRef> {
    if |songs| == 0 then []
    else
      var last := |songs| - 1;
      SongsTitled(songs[..last], title) + (if songs[last].title == title then [last] else [])
  }

  /** Scanning one more catalog song. */
  lemma SongsTitledStep(songs: seq<Song>, title: string, i: nat)
    requires i < |songs|
    ensures SongsTitled(songs[..i + 1], title) ==
            SongsTitled(songs[..i], title) + (if songs[i].title == title then [i] else [])
  {
    assert songs[..i + 1][..i] == songs[..i];
  }

  /** One title's selection lists its songs in catalog order. */
  lemma {:induction false} SongsTitledOrdered(songs: seq<Song>, title: string)
    ensures var r := SongsTitled(songs, title);
      forall k, l :: 0 <= k < l < |r| ==> r[k] < r[l]
    decreases |songs|
  {
    if |songs| != 0 {
      var last := |songs| - 1;
      var front := SongsTitled(songs[..last], title);
      SongsTitledOrdered(songs[..last], title);
      forall k | 0 <= k < |front|
        ensures front[k] < last
      {
        SongsTitledCount(songs[..last], title, front[k]);
        assert front[k] in multiset(front);
      }
    }
  }

  /** For each requested title in turn, every catalog song with that title. */
  function SongsForTitles(songs: seq<Song>, titles: seq<string>): seq<SongRef> {
    if |titles| == 0 then []
    else SongsForTitles(songs, titles[..|titles| - 1]) + SongsTitled(songs, titles[|titles| - 1])
  }

  /** Requesting one more title. */
  lemma SongsForTitlesStep(songs: seq<Song>, titles: seq<string>, j: nat)
    requires j < |titles|
    ensures SongsForTitles(songs, titles[..j + 1]) ==
            SongsForTitles(songs, titles[..j]) + SongsTitled(songs, titles[j])
  {
    assert titles[..j + 1][..j] == titles[..j];
  }

  /** A by-name playlist holds exactly the catalog songs whose title was
      requested. */
  lemma {:induction false} SongsForTitlesMembers(songs: seq<Song>, titles: seq<string>, i: SongRef)
    ensures i in SongsForTitles(songs, titles) <==> i < |songs| && songs[i].title in titles
    decreases |titles|
  {
    if |titles| != 0 {
      var front := titles[..|titles| - 1];
      var t := titles[|titles| - 1];
      assert titles == front + [t];
      SongsForTitlesMembers(songs, front, i);
      SongsTitledCount(songs, t, i);
      assert i in SongsTitled(songs, t) <==> multiset(SongsTitled(songs, t))[i] > 0;
    }
  }

  /** A by-name selection is empty exactly when no catalog song has a
      requested title. */
  lemma SongsForTitlesEmpty(songs: seq<Song>, titles: seq<string>)
    ensures SongsForTitles(songs, titles) == [] <==>
            forall i :: 0 <= i < |songs| ==> songs[i].title !in titles
  {
    var r := SongsForTitles(songs, titles);
    if r != [] {
      SongsForTitlesMembers(songs, titles, r[0]);
    }
    forall i | 0 <= i < |songs| && songs[i].title in titles
      ensures r != []
    {
      SongsForTitlesMembers(songs, titles, i);
    }
  }

  /** Requesting `a` and then `b` selects what `a` selects followed by what
      `b` selects; in particular a title requested twice is selected twice. */
  lemma {:induction false} SongsForTitlesAppend(songs: seq<Song>, a: seq<string>, b: seq<string>)
    ensures SongsForTitles(songs, a + b) == SongsForTitles(songs, a) + SongsForTitles(songs, b)
    decreases |b|
  {
    if |b| == 0 {
      assert a + b == a;
    } else {
      var b', t := b[..|b| - 1], b[|b| - 1];
      assert (a + b)[..|a + b| - 1] == a + b';
      assert (a + b)[|a + b| - 1] == t;
      SongsForTitlesAppend(songs, a, b');
      var x, y, z := SongsForTitles(songs, a), SongsForTitles(songs, b'), SongsTitled(songs, t);
      assert SongsForTitles(songs, a + b) == (x + y) + z;
      assert SongsForTitles(songs, b) == y + z;
      assert (x + y) + z == x + (y + z);
    }
  }

  /** A song titled `t` occurs once among the songs titled `t`, and no other
      song occurs there. */
  lemma {:induction false} SongsTitledCount(songs: seq<Song>, title: string, i: SongRef)
    ensures multiset(SongsTitled(songs, title))[i] ==
            if i < |songs| && songs[i].title == title then 1 else 0
    decreases |songs|
  {
    if |songs| != 0 {
      var last := |songs| - 1;
      var tail := if songs[last].title == title then [last] else [];
      assert SongsTitled(songs, title) == SongsTitled(songs[..last], title) + tail;
      assert multiset(SongsTitled(songs, title)) == multiset(SongsTitled(songs[..last], title)) + multiset(tail);
      SongsTitledCount(songs[..last], title, i);
      if i < last {
        assert songs[..last][i] == songs[i];
      }
    }
  }

  /** Each catalog song occurs in a by-name playlist as many times as its
      title was requested. */
  lemma {:induction false} SongsForTitlesCount(songs: seq<Song>, titles: seq<string>, i: SongRef)
    requires i < |songs|
    ensures multiset(SongsForTitles(songs, titles))[i] == multiset(titles)[songs[i].title]
    decreases |titles|
  {
    if |titles| != 0 {
      var front := titles[..|titles| - 1];
      var t := titles[|titles| - 1];
      assert titles == front + [t];
      SongsForTitlesCount(songs, front, i);
      SongsTitledCount(songs, t, i);
    }
  }

  /** `k` is the first position holding the strictly largest positive count. */
  ghost predicate IsFirstStrictMax(counts: seq<int>, k: int) {
    0 <= k < |counts| && counts[k] > 0 &&
    (forall j :: 0 <= j < |counts| ==> counts[j] <= counts[k]) &&
    (forall j :: 0 <= j < k ==> counts[j] < counts[k])
  }

  /** The scan that keeps the best position whose count beats the best so far,
      starting from a best count of 0. */
  function FirstStrictMax(counts: seq<int>): (r: Option<nat>)
    ensures r.Some? ==> IsFirstStrictMax(counts, r.value)
    ensures r.None? <==> forall j :: 0 <= j < |counts| ==> counts[j] <= 0
  {
    if |counts| == 0 then None
    else
      var last := |counts| - 1;
      var best := FirstStrictMax(counts[..last]);
      var max := if best.Some? then counts[best.value] else 0;
      if counts[last] > max then Some(last) else best
  }

  /** The name of the first artist with the strictly largest positive like
      count; none when no artist has a like. */
  function PopularArtistName(artists: seq<Artist>): (r: Option<string>)
    ensures r.None? <==> forall a :: 0 <= a < |artists| ==> artists[a].likes <= 0
    ensures r.Some? ==> exists a :: IsFirstStrictMax(ArtistLikes(artists), a) && artists[a].name == r.value
  {
    var likes := ArtistLikes(artists);
    assert forall a :: 0 <= a < |artists| ==> likes[a] == artists[a].likes;
    match FirstStrictMax(likes)
    case None => None
    case Some(a) => Some(artists[a].name)
  }

  /** The title of the first song with the strictly largest positive like
      count; none when no song has a like. */
  function PopularSongTitle(songs: seq<Song>): (r: Option<string>)
    ensures r.None? <==> forall s :: 0 <= s < |songs| ==> songs[s].likes <= 0
    ensures r.Some? ==> exists s :: IsFirstStrictMax(SongLikes(songs), s) && songs[s].title == r.value
  {
    var likes := SongLikes(songs);
    assert forall s :: 0 <= s < |songs| ==> likes[s] == songs[s].likes;
    match FirstStrictMax(likes)
    case None => None
    case Some(s) => Some(songs[s].title)
  }
}
