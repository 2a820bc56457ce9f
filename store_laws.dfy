/** What each operation does to the state and answers, stated without
    reference to how the state model computes it. */
module StoreLaws {
  import opened Domain
  import opened Catalog
  import opened Tally
  import opened StoreModel
  import opened StoreProperties

  /** `k` is the first position of `key` in `keys`. */
  ghost predicate FirstMatch(keys: seq<string>, key: string, k: int) {
    0 <= k < |keys| && keys[k] == key && forall j :: 0 <= j < k ==> keys[j] != key
  }

  lemma FirstIndexOfIsFirstMatch(keys: seq<string>, key: string, k: int)
    requires FirstMatch(keys, key, k)
    ensures FirstIndexOf(keys, key) == Some(k)
  {
    var r := FirstIndexOf(keys, key);
    if r.Some? {
      assert !(r.value < k) && !(k < r.value);
    }
  }

  // ---------------------------------------------------------------- albums

  /** The attached album is new, has no songs, and is listed under artist
      `a` and under no other. */
  lemma AttachAlbumListedOnce(st: Store, a: ArtistRef, title: string)
    requires RefsBelow(st.artistAlbumMap, |st.albums|) && a in st.artistAlbumMap
    ensures var r := AttachAlbum(st, a, title);
      r.out == |st.albums| && r.next.albums == st.albums + [Album(title)] &&
      r.next.artists == st.artists &&
      r.out in r.next.albumSongMap && r.next.albumSongMap[r.out] == [] &&
      a in r.next.artistAlbumMap && r.out in r.next.artistAlbumMap[a] &&
      forall b :: b in r.next.artistAlbumMap && r.out in r.next.artistAlbumMap[b] ==> b == a
  {
    var r := AttachAlbum(st, a, title);
    var al := |st.albums|;
    assert r.next.artistAlbumMap[a][|st.artistAlbumMap[a]|] == al;
    assert forall b :: b in st.artistAlbumMap && b != a ==> r.next.artistAlbumMap[b] == st.artistAlbumMap[b];
  }

  /** The album of an existing artist name goes to the first artist so named. */
  lemma CreateAlbumForKnownArtist(st: Store, title: string, artistName: string, a: ArtistRef)
    requires Entries(st) && RefsBelow(st.artistAlbumMap, |st.albums|)
    requires FirstMatch(ArtistNames(st.artists), artistName, a)
    ensures var r := CreateAlbum(st, title, artistName);
      r.out == |st.albums| && r.next.albums == st.albums + [Album(title)] &&
      r.out in r.next.albumSongMap && r.next.albumSongMap[r.out] == [] &&
      r.next.artists == st.artists &&
      a in r.next.artistAlbumMap && r.out in r.next.artistAlbumMap[a] &&
      forall b :: b in r.next.artistAlbumMap && r.out in r.next.artistAlbumMap[b] ==> b == a
  {
    FirstIndexOfIsFirstMatch(ArtistNames(st.artists), artistName, a);
    AttachAlbumListedOnce(st, a, title);
  }

  /** The album of an unknown artist name goes to a new artist of that name. */
  lemma CreateAlbumForNewArtist(st: Store, title: string, artistName: string)
    requires Entries(st) && RefsBelow(st.artistAlbumMap, |st.albums|)
    requires forall j :: 0 <= j < |st.artists| ==> st.artists[j].name != artistName
    ensures var r, a := CreateAlbum(st, title, artistName), |st.artists|;
      r.out == |st.albums| && r.next.albums == st.albums + [Album(title)] &&
      r.out in r.next.albumSongMap && r.next.albumSongMap[r.out] == [] &&
      r.next.artists == st.artists + [Artist(artistName, 0)] &&
      a in r.next.artistAlbumMap && r.out in r.next.artistAlbumMap[a] &&
      forall b :: b in r.next.artistAlbumMap && r.out in r.next.artistAlbumMap[b] ==> b == a
  {
    assert forall j :: 0 <= j < |st.artists| ==> ArtistNames(st.artists)[j] == st.artists[j].name;
    var a := |st.artists|;
    RefsBelowPut(st.artistAlbumMap, |st.albums|, |st.albums|, a, []);
    AttachAlbumListedOnce(CreateArtist(st, artistName).next, a, title);
  }

  /** A new album goes to the first artist of that name, or to a new artist
      with no likes when there is none; either way it is listed under exactly
      that artist and starts with no songs. */
  lemma CreateAlbumAttaches(st: Store, title: string, artistName: string)
    requires Entries(st) && Ownership(st)
    ensures var r := CreateAlbum(st, title, artistName);
      r.out == |st.albums| && r.next.albums == st.albums + [Album(title)] &&
      r.out in r.next.albumSongMap && r.next.albumSongMap[r.out] == []
    ensures var r := CreateAlbum(st, title, artistName);
      (exists a :: 0 <= a < |st.artists| && st.artists[a].name == artistName)
        ==> r.next.artists == st.artists
    ensures var r := CreateAlbum(st, title, artistName);
      (forall a :: 0 <= a < |st.artists| ==> st.artists[a].name != artistName)
        ==> r.next.artists == st.artists + [Artist(artistName, 0)]
    ensures var r := CreateAlbum(st, title, artistName);
      exists a :: a in r.next.artistAlbumMap && r.out in r.next.artistAlbumMap[a]
    ensures var r := CreateAlbum(st, title, artistName);
      forall a :: a in r.next.artistAlbumMap && r.out in r.next.artistAlbumMap[a] ==>
        FirstMatch(ArtistNames(r.next.artists), artistName, a)
  {
    var r := CreateAlbum(st, title, artistName);
    assert RefsBelow(st.artistAlbumMap, |st.albums|);
    assert forall j :: 0 <= j < |st.artists| ==> ArtistNames(st.artists)[j] == st.artists[j].name;
    var found := FirstIndexOf(ArtistNames(st.artists), artistName);
    if found.Some? {
      CreateAlbumForKnownArtist(st, title, artistName, found.value);
      assert FirstMatch(ArtistNames(r.next.artists), artistName, found.value);
    } else {
      var a := |st.artists|;
      CreateAlbumForNewArtist(st, title, artistName);
      assert ArtistNames(r.next.artists)[a] == artistName;
      assert forall j :: 0 <= j < a ==> ArtistNames(st.artists)[j] == ArtistNames(r.next.artists)[j];
      assert FirstMatch(ArtistNames(r.next.artists), artistName, a);
    }
  }

  // ----------------------------------------------------------------- songs

  /** A new song with no likes and no likers is appended to the catalog and to
      the first album with that title, and to no other album. */
  lemma CreateSongAppends(st: Store, title: string, albumName: string, length: int)
    requires Valid(st)
    ensures var r := CreateSong(st, title, albumName, length);
      r.out.Ok? ==>
        r.out.value == |st.songs| && r.next.songs == st.songs + [Song(title, length, 0)] &&
        r.out.value in r.next.songLikeMap && r.next.songLikeMap[r.out.value] == [] &&
        r.next.albums == st.albums
    ensures var r := CreateSong(st, title, albumName, length);
      r.out.Ok? ==>
        (exists al :: al in r.next.albumSongMap && r.out.value in r.next.albumSongMap[al]) &&
        forall al :: al in r.next.albumSongMap && r.out.value in r.next.albumSongMap[al] ==>
          FirstMatch(AlbumTitles(st.albums), albumName, al)
  {
    var r := CreateSong(st, title, albumName, length);
    if r.out.Ok? {
      var s := |st.songs|;
      CreateSongValid(st, title, albumName, length);
      var al0 := FirstIndexOf(AlbumTitles(st.albums), albumName).value;
      assert FirstMatch(AlbumTitles(st.albums), albumName, al0);
      assert r.next.albumSongMap[al0][|r.next.albumSongMap[al0]| - 1] == s;
      assert s in r.next.albumSongMap[al0];
      assert r.next.songAlbum[s] == al0;
      forall al | al in r.next.albumSongMap && s in r.next.albumSongMap[al]
        ensures al == al0
      {
        var k :| 0 <= k < |r.next.albumSongMap[al]| && r.next.albumSongMap[al][k] == s;
      }
    }
  }

  // ------------------------------------------------------------- playlists

  /** The common part of both constructors: the playlist is appended, its
      creator is its only listener and now its creator's latest playlist
      (earlier playlists of that user are kept), and its songs get an entry
      only when there is at least one. */
  lemma AddPlaylistOutcome(st: Store, u: UserRef, title: string, members: seq<SongRef>)
    requires |st.playlists| !in st.playlistSongMap
    ensures var st', p := AddPlaylist(st, u, title, members), |st.playlists|;
      st'.playlists == st.playlists + [Playlist(title)] &&
      st'.users == st.users && st'.songs == st.songs &&
      p in st'.playlistListenerMap && st'.playlistListenerMap[p] == [u] &&
      u in st'.creatorPlaylistMap && st'.creatorPlaylistMap[u] == p &&
      u in st'.userPlaylistMap && st'.userPlaylistMap[u] == ListOrEmpty(st.userPlaylistMap, u) + [p]
    ensures var st', p := AddPlaylist(st, u, title, members), |st.playlists|;
      (p in st'.playlistSongMap <==> members != []) &&
      (p in st'.playlistSongMap ==> st'.playlistSongMap[p] == members) &&
      forall q :: q in st.playlistSongMap ==> q in st'.playlistSongMap && st'.playlistSongMap[q] == st.playlistSongMap[q]
  {
  }

  /** The creator looked up for a playlist constructor: the first user with
      that mobile. */
  lemma CreatorIsFirstUser(st: Store, mobile: string)
    ensures FirstIndexOf(Mobiles(st.users), mobile).None? <==>
            forall i :: 0 <= i < |st.users| ==> st.users[i].mobile != mobile
    ensures FirstIndexOf(Mobiles(st.users), mobile).Some? ==>
            FirstMatch(Mobiles(st.users), mobile, FirstIndexOf(Mobiles(st.users), mobile).value)
  {
    assert forall i :: 0 <= i < |st.users| ==> Mobiles(st.users)[i] == st.users[i].mobile;
  }

  /** A playlist by length fails, changing nothing, exactly when no user has
      that mobile; otherwise its songs are exactly the catalog songs of that
      length, in catalog order, and it has a song entry only when there is one. */
  lemma CreatePlaylistOnLengthOutcome(st: Store, mobile: string, title: string, length: int)
    requires KeysBelow(st.playlistSongMap, |st.playlists|)
    ensures var r := CreatePlaylistOnLength(st, mobile, title, length);
      (r.out.Err? <==> forall i :: 0 <= i < |st.users| ==> st.users[i].mobile != mobile) &&
      (r.out.Err? ==> r.out.error == NotFound && r.next == st)
    ensures var r := CreatePlaylistOnLength(st, mobile, title, length);
      r.out.Ok? ==>
        r.out.value == |st.playlists| && r.next.playlists == st.playlists + [Playlist(title)] &&
        exists u :: FirstMatch(Mobiles(st.users), mobile, u) &&
          r.next.playlistListenerMap[r.out.value] == [u] && r.next.creatorPlaylistMap[u] == r.out.value &&
          r.next.userPlaylistMap[u] == ListOrEmpty(st.userPlaylistMap, u) + [r.out.value]
    ensures var r := CreatePlaylistOnLength(st, mobile, title, length);
      r.out.Ok? ==>
        (r.out.value in r.next.playlistSongMap <==>
           exists i :: 0 <= i < |st.songs| && st.songs[i].length == length) &&
        (r.out.value in r.next.playlistSongMap ==>
           var chosen := r.next.playlistSongMap[r.out.value];
           (forall i :: i in chosen <==> 0 <= i < |st.songs| && st.songs[i].length == length) &&
           (forall k, l :: 0 <= k < l < |chosen| ==> chosen[k] < chosen[l]))
  {
    CreatorIsFirstUser(st, mobile);
    var found := FirstIndexOf(Mobiles(st.users), mobile);
    if found.Some? {
      var chosen := SongsOfLength(st.songs, length);
      SongsOfLengthMembers(st.songs, length);
      SongsOfLengthEmpty(st.songs, length);
      AddPlaylistOutcome(st, found.value, title, chosen);
    }
  }

  /** A playlist by titles fails, changing nothing, exactly when no user has
      that mobile; otherwise each catalog song is in it once per request of
      its title, nothing else is, and it has a song entry only when some
      requested title names a song. */
  lemma CreatePlaylistOnNameOutcome(st: Store, mobile: string, title: string, songTitles: seq<string>)
    requires KeysBelow(st.playlistSongMap, |st.playlists|)
    ensures var r := CreatePlaylistOnName(st, mobile, title, songTitles);
      (r.out.Err? <==> forall i :: 0 <= i < |st.users| ==> st.users[i].mobile != mobile) &&
      (r.out.Err? ==> r.out.error == NotFound && r.next == st)
    ensures var r := CreatePlaylistOnName(st, mobile, title, songTitles);
      r.out.Ok? ==>
        r.out.value == |st.playlists| && r.next.playlists == st.playlists + [Playlist(title)] &&
        exists u :: FirstMatch(Mobiles(st.users), mobile, u) &&
          r.next.playlistListenerMap[r.out.value] == [u] && r.next.creatorPlaylistMap[u] == r.out.value &&
          r.next.userPlaylistMap[u] == ListOrEmpty(st.userPlaylistMap, u) + [r.out.value]
    ensures var r := CreatePlaylistOnName(st, mobile, title, songTitles);
      r.out.Ok? ==>
        (r.out.value in r.next.playlistSongMap <==>
           exists i :: 0 <= i < |st.songs| && st.songs[i].title in songTitles) &&
        (r.out.value in r.next.playlistSongMap ==>
           var chosen := r.next.playlistSongMap[r.out.value];
           (forall k :: 0 <= k < |chosen| ==> chosen[k] < |st.songs|) &&
           (forall i :: 0 <= i < |st.songs| ==> multiset(chosen)[i] == multiset(songTitles)[st.songs[i].title]))
  {
    CreatorIsFirstUser(st, mobile);
    var found := FirstIndexOf(Mobiles(st.users), mobile);
    if found.Some? {
      var chosen := SongsForTitles(st.songs, songTitles);
      SongsForTitlesEmpty(st.songs, songTitles);
      AddPlaylistOutcome(st, found.value, title, chosen);
      forall k | 0 <= k < |chosen|
        ensures chosen[k] < |st.songs|
      {
        SongsForTitlesMembers(st.songs, songTitles, chosen[k]);
      }
      forall i | 0 <= i < |st.songs|
        ensures multiset(chosen)[i] == multiset(songTitles)[st.songs[i].title]
      {
        SongsForTitlesCount(st.songs, songTitles, i);
      }
    }
  }


  // ------------------------------------------------------------ subscribing

  lemma PlaylistIsFirstTitled(st: Store, title: string)
    ensures FirstIndexOf(PlaylistTitles(st.playlists), title).None? <==>
            forall i :: 0 <= i < |st.playlists| ==> st.playlists[i].title != title
    ensures FirstIndexOf(PlaylistTitles(st.playlists), title).Some? ==>
            FirstMatch(PlaylistTitles(st.playlists), title, FirstIndexOf(PlaylistTitles(st.playlists), title).value)
  {
    assert forall i :: 0 <= i < |st.playlists| ==> PlaylistTitles(st.playlists)[i] == st.playlists[i].title;
  }

  /** What user `u` joining playlist `p` gives: afterwards the user
      listens to the playlist, and joining fails only for a user who was not
      listening and never created a playlist. A user already listening
      changes nothing; any other user is appended to the listeners, and the
      playlist to the user's own playlists when the user has that list. */
  ghost predicate Joined(st: Store, u: UserRef, p: PlaylistRef, r: Step<Result<PlaylistRef>>) {
    p in st.playlistListenerMap &&
    r.next.users == st.users && r.next.playlists == st.playlists &&
    r.out != Err(NotFound) && (r.out.Ok? ==> r.out.value == p) &&
    p in r.next.playlistListenerMap && u in r.next.playlistListenerMap[p] &&
    (r.out == Err(NullPointer) <==> u !in st.playlistListenerMap[p] && u !in st.userPlaylistMap) &&
    (u in st.playlistListenerMap[p] ==> r == Step(st, Ok(p))) &&
    (u !in st.playlistListenerMap[p] ==>
       r.next == st.(playlistListenerMap := st.playlistListenerMap[p := st.playlistListenerMap[p] + [u]],
                     userPlaylistMap := if u in st.userPlaylistMap
                                        then st.userPlaylistMap[u := st.userPlaylistMap[u] + [p]]
                                        else st.userPlaylistMap))
  }

  /** Every join has the effect `Joined` describes. */
  lemma JoinOutcome(st: Store, u: UserRef, p: PlaylistRef)
    requires p in st.playlistListenerMap
    ensures Joined(st, u, p, Join(st, u, p))
  {
    var v := st.playlistListenerMap[p];
    if u !in v {
      assert Join(st, u, p).next.playlistListenerMap[p][|v|] == u;
    }
  }

  /** Subscribing fails with nothing changed exactly when the user or the
      playlist is unknown; otherwise the user listens to the first playlist
      with that title afterwards, even when the call then fails because the
      user never created a playlist (see `Joined`). */
  lemma FindPlaylistOutcome(st: Store, mobile: string, title: string)
    requires KeysAre(st.playlistListenerMap, |st.playlists|)
    ensures var r := FindPlaylist(st, mobile, title);
      (r.out == Err(NotFound) <==>
         (forall i :: 0 <= i < |st.users| ==> st.users[i].mobile != mobile) ||
         (forall i :: 0 <= i < |st.playlists| ==> st.playlists[i].title != title)) &&
      (r.out == Err(NotFound) ==> r.next == st)
    ensures var r := FindPlaylist(st, mobile, title);
      r.out != Err(NotFound) ==>
        exists u, p :: FirstMatch(Mobiles(st.users), mobile, u) &&
          FirstMatch(PlaylistTitles(st.playlists), title, p) && Joined(st, u, p, r)
  {
    CreatorIsFirstUser(st, mobile);
    PlaylistIsFirstTitled(st, title);
    match FirstIndexOf(Mobiles(st.users), mobile)
    case None =>
    case Some(u) =>
      match FirstIndexOf(PlaylistTitles(st.playlists), title)
      case None =>
      case Some(p) =>
        JoinOutcome(st, u, p);
  }

  /** Joining again changes nothing and succeeds. */
  lemma JoinAgain(st: Store, u: UserRef, p: PlaylistRef)
    requires p in st.playlistListenerMap
    ensures var r := Join(st, u, p);
      p in r.next.playlistListenerMap && Join(r.next, u, p) == Step(r.next, Ok(p))
    ensures var r := Join(st, u, p);
      r.next.playlists == st.playlists && r.next.users == st.users &&
      forall q :: q in r.next.playlistListenerMap <==> q in st.playlistListenerMap
  {
    JoinOutcome(st, u, p);
  }

  /** Subscribing twice is subscribing once: a second call changes nothing,
      and after the null-dereference failure the retry succeeds. */
  lemma FindPlaylistIdempotent(st: Store, mobile: string, title: string)
    requires KeysAre(st.playlistListenerMap, |st.playlists|)
    ensures var r := FindPlaylist(st, mobile, title);
      KeysAre(r.next.playlistListenerMap, |r.next.playlists|)
    ensures var r := FindPlaylist(st, mobile, title);
      var again := FindPlaylist(r.next, mobile, title);
      again.next == r.next && (r.out.Ok? ==> again.out == r.out) &&
      (r.out == Err(NullPointer) ==> again.out.Ok?)
  {
    match FirstIndexOf(Mobiles(st.users), mobile)
    case None =>
    case Some(u) =>
      match FirstIndexOf(PlaylistTitles(st.playlists), title)
      case None =>
      case Some(p) =>
        JoinAgain(st, u, p);
  }

  // ----------------------------------------------------------------- likes

  /** The scan over every artist's albums finds song `s` under its owner and
      under no other artist. */
  lemma ScanFindsOwner(st: Store, a: ArtistRef, s: SongRef)
    requires Entries(st) && Ownership(st) && a < |st.artists| && s < |st.songs|
    ensures forall k :: 0 <= k < |st.artistAlbumMap[a]| ==> st.artistAlbumMap[a][k] in st.albumSongMap
    ensures ListsSong(st, a, s) <==> a == st.albumArtist[st.songAlbum[s]]
  {
    var al := st.songAlbum[s];
    if a == st.albumArtist[al] {
      var k :| 0 <= k < |st.artistAlbumMap[a]| && st.artistAlbumMap[a][k] == al;
      assert s in st.albumSongMap[st.artistAlbumMap[a][k]];
    }
    if ListsSong(st, a, s) {
      var k :| 0 <= k < |st.artistAlbumMap[a]| && s in st.albumSongMap[st.artistAlbumMap[a][k]];
      var j :| 0 <= j < |st.albumSongMap[st.artistAlbumMap[a][k]]| && st.albumSongMap[st.artistAlbumMap[a][k]][j] == s;
    }
  }

  /** Liking fails with nothing changed exactly when the user or the song is
      unknown, and otherwise answers the first song with that title. */
  lemma LikeSongNotFound(st: Store, mobile: string, title: string)
    requires Entries(st) && Ownership(st)
    ensures var r := LikeSong(st, mobile, title);
      (r.out.Err? <==>
         (forall i :: 0 <= i < |st.users| ==> st.users[i].mobile != mobile) ||
         (forall i :: 0 <= i < |st.songs| ==> st.songs[i].title != title)) &&
      (r.out.Err? ==> r.out.error == NotFound && r.next == st) &&
      (r.out.Ok? ==> FirstMatch(SongTitles(st.songs), title, r.out.value))
  {
    CreatorIsFirstUser(st, mobile);
    assert forall i :: 0 <= i < |st.songs| ==> SongTitles(st.songs)[i] == st.songs[i].title;
  }

  /** A user's first like of a song adds the user to its likers and one like
      to the song and to each artist whose albums list it; nothing else in the
      store changes, artist names included. A repeated like changes nothing. */
  lemma LikeSongCounts(st: Store, mobile: string, title: string)
    requires Entries(st) && Ownership(st)
    ensures var r := LikeSong(st, mobile, title);
      r.out.Ok? ==>
        var s := r.out.value;
        r.next.users == st.users && |r.next.songs| == |st.songs| && |r.next.artists| == |st.artists| &&
        exists u :: FirstMatch(Mobiles(st.users), mobile, u) &&
          (u in st.songLikeMap[s] ==> r.next == st) &&
          (u !in st.songLikeMap[s] ==>
             r.next == st.(songLikeMap := st.songLikeMap[s := st.songLikeMap[s] + [u]],
                           songs := st.songs[s := st.songs[s].(likes := st.songs[s].likes + 1)],
                           artists := r.next.artists) &&
             forall a :: 0 <= a < |st.artists| ==>
               r.next.artists[a].name == st.artists[a].name &&
               r.next.artists[a].likes == st.artists[a].likes + (if ListsSong(st, a, s) then 1 else 0))
  {
    CreatorIsFirstUser(st, mobile);
    var r := LikeSong(st, mobile, title);
    if r.out.Ok? {
      var s := r.out.value;
      var u := FirstIndexOf(Mobiles(st.users), mobile).value;
      if u !in st.songLikeMap[s] {
        RecordLikeCredits(st, u, s);
      }
    }
  }

  /** A recorded like adds the user to the song's likers, one like to the
      song and one to each artist whose albums list the song, which is its
      owner alone; no other song and no artist's name changes. */
  lemma RecordLikeCredits(st: Store, u: UserRef, s: SongRef)
    requires Entries(st) && Ownership(st) && s < |st.songs|
    ensures var next := RecordLike(st, u, s, st.albumArtist[st.songAlbum[s]]);
      next.users == st.users && |next.songs| == |st.songs| &&
      next.songLikeMap[s] == st.songLikeMap[s] + [u] &&
      next.songs[s].likes == st.songs[s].likes + 1 &&
      (forall t :: 0 <= t < |st.songs| && t != s ==> next.songs[t] == st.songs[t])
    ensures var next := RecordLike(st, u, s, st.albumArtist[st.songAlbum[s]]);
      |next.artists| == |st.artists| &&
      forall a :: 0 <= a < |st.artists| ==>
        next.artists[a].name == st.artists[a].name &&
        next.artists[a].likes == st.artists[a].likes + (if ListsSong(st, a, s) then 1 else 0)
  {
    forall a | 0 <= a < |st.artists|
      ensures ListsSong(st, a, s) <==> a == st.albumArtist[st.songAlbum[s]]
    {
      ScanFindsOwner(st, a, s);
    }
  }

  /** Liking twice is liking once. */
  lemma LikeSongIdempotent(st: Store, mobile: string, title: string)
    requires Entries(st) && Ownership(st)
    ensures Entries(LikeSong(st, mobile, title).next) && Ownership(LikeSong(st, mobile, title).next)
    ensures var r := LikeSong(st, mobile, title);
      LikeSong(r.next, mobile, title) == Step(r.next, r.out)
  {
    var r := LikeSong(st, mobile, title);
    match FirstIndexOf(Mobiles(st.users), mobile)
    case None =>
    case Some(u) =>
      match FirstIndexOf(SongTitles(st.songs), title)
      case None =>
      case Some(s) =>
        if u !in st.songLikeMap[s] {
          RecordLikeEntries(st, u, s, st.albumArtist[st.songAlbum[s]]);
          OwnershipKept(st, r.next);
          assert SongTitles(r.next.songs) == SongTitles(st.songs);
          assert r.next.songLikeMap[s][|st.songLikeMap[s]|] == u;
        }
  }

  /** Conservation of likes: in every reachable state the artists' likes add
      up to the songs' likes. */
  lemma StoreLikesConserved(st: Store)
    requires Valid(st)
    ensures SumArtistLikes(st.artists) == SumSongLikes(st.songs)
  {
    LikesConserved(st.artists, st.songs, SongOwners(st));
  }
}
