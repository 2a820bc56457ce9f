/** The repository object itself: its maps and lists are fields that its
    operations update in place, each operation proved to leave the state the
    state model prescribes and to keep the invariant. */
module Repository {
  import opened Domain
  import opened Catalog
  import StoreModel
  import opened StoreProperties
  import opened StoreLaws

  /** Song `i` joins playlist `p`'s list, the list being created first when
      the playlist has none. */
  method AddMember(m: map<PlaylistRef, seq<SongRef>>, p: PlaylistRef, i: SongRef)
    returns (m': map<PlaylistRef, seq<SongRef>>)
    ensures m' == m[p := StoreModel.ListOrEmpty(m, p) + [i]]
  {
    m' := m;
    if p !in m' {
      m' := m'[p := []];
    }
    m' := m'[p := m'[p] + [i]];
  }

  /** The song map after the by-length scan: every catalog song of that
      length is added to playlist `p`'s list, the list being created on the
      first match. */
  method CollectByLength(m: map<PlaylistRef, seq<SongRef>>, p: PlaylistRef, songs: seq<Song>, length: int)
    returns (m': map<PlaylistRef, seq<SongRef>>)
    requires p !in m
    ensures m' == StoreModel.PutMembers(m, p, SongsOfLength(songs, length))
  {
    m' := m;
    var i := 0;
    while i < |songs|
      invariant 0 <= i <= |songs|
      invariant m' == StoreModel.PutMembers(m, p, SongsOfLength(songs[..i], length))
    {
      SongsOfLengthStep(songs, length, i);
      if songs[i].length == length {
        PutMembersAppend(m, p, SongsOfLength(songs[..i], length), i);
        m' := AddMember(m', p, i);
      } else {
        assert SongsOfLength(songs[..i + 1], length) == SongsOfLength(songs[..i], length);
      }
      i := i + 1;
    }
    assert songs[..i] == songs;
  }

  /** The song map after the by-title scan: for each requested title in
      turn, every catalog song with that title is added to playlist `p`'s
      list, the list being created on the first match. */
  method CollectByTitles(m: map<PlaylistRef, seq<SongRef>>, p: PlaylistRef, songs: seq<Song>, songTitles: seq<string>)
    returns (m': map<PlaylistRef, seq<SongRef>>)
    requires p !in m
    ensures m' == StoreModel.PutMembers(m, p, SongsForTitles(songs, songTitles))
  {
    m' := m;
    var j := 0;
    while j < |songTitles|
      invariant 0 <= j <= |songTitles|
      invariant m' == StoreModel.PutMembers(m, p, SongsForTitles(songs, songTitles[..j]))
    {
      m' := CollectTitled(m, m', p, songs, songTitles[j], SongsForTitles(songs, songTitles[..j]));
      SongsForTitlesStep(songs, songTitles, j);
      j := j + 1;
    }
    assert songTitles[..j] == songTitles;
  }

  /** One requested title of the by-title scan: every catalog song with
      title `t` is added to playlist `p`'s list, after the songs `before`
      chosen for the earlier titles. */
  method CollectTitled(m: map<PlaylistRef, seq<SongRef>>, current: map<PlaylistRef, seq<SongRef>>,
                       p: PlaylistRef, songs: seq<Song>, t: string, ghost before: seq<SongRef>)
    returns (m': map<PlaylistRef, seq<SongRef>>)
    requires p !in m && current == StoreModel.PutMembers(m, p, before)
    ensures m' == StoreModel.PutMembers(m, p, before + SongsTitled(songs, t))
  {
    m' := current;
    var i := 0;
    assert before + SongsTitled(songs[..0], t) == before;
    while i < |songs|
      invariant 0 <= i <= |songs|
      invariant m' == StoreModel.PutMembers(m, p, before + SongsTitled(songs[..i], t))
    {
      SongsTitledStep(songs, t, i);
      if songs[i].title == t {
        PutMembersAppend(m, p, before + SongsTitled(songs[..i], t), i);
        assert before + SongsTitled(songs[..i + 1], t) == before + SongsTitled(songs[..i], t) + [i];
        m' := AddMember(m', p, i);
      } else {
        assert before + SongsTitled(songs[..i + 1], t) == before + SongsTitled(songs[..i], t);
      }
      i := i + 1;
    }
    assert songs[..i] == songs;
  }

  /** The like counts after the scan over every artist's albums: the artist
      one of whose albums lists song `s` gets one more like. The artists are
      visited in creation order; exactly one of them lists the song, so the
      order does not matter. */
  method CreditOwner(artists: seq<Artist>, artistAlbumMap: map<ArtistRef, seq<AlbumRef>>,
                     albumSongMap: map<AlbumRef, seq<SongRef>>, s: SongRef, ghost st: StoreModel.Store)
    returns (tallies: seq<Artist>)
    requires StoreModel.Entries(st) && StoreModel.Ownership(st) && s < |st.songs|
    requires artists == st.artists && artistAlbumMap == st.artistAlbumMap && albumSongMap == st.albumSongMap
    ensures var owner := st.albumArtist[st.songAlbum[s]];
      tallies == artists[owner := artists[owner].(likes := artists[owner].likes + 1)]
  {
    ghost var owner := st.albumArtist[st.songAlbum[s]];
    ghost var bumped := artists[owner := artists[owner].(likes := artists[owner].likes + 1)];
    tallies := artists;
    var a := 0;
    while a < |artists|
      invariant 0 <= a <= |artists|
      invariant tallies == if owner < a then bumped else artists
    {
      ScanFindsOwner(st, a, s);
      var albumsOf := artistAlbumMap[a];
      var k := 0;
      while k < |albumsOf|
        invariant 0 <= k <= |albumsOf|
        invariant tallies == if owner < a then bumped else artists
        invariant forall j :: 0 <= j < k ==> s !in albumSongMap[albumsOf[j]]
      {
        if s in albumSongMap[albumsOf[k]] {
          tallies := tallies[a := tallies[a].(likes := tallies[a].likes + 1)];
          break;
        }
        k := k + 1;
      }
      a := a + 1;
    }
  }

  class SpotifyRepository {
    var artistAlbumMap: map<ArtistRef, seq<AlbumRef>>
    var albumSongMap: map<AlbumRef, seq<SongRef>>
    var playlistSongMap: map<PlaylistRef, seq<SongRef>>
    var playlistListenerMap: map<PlaylistRef, seq<UserRef>>
    var creatorPlaylistMap: map<UserRef, PlaylistRef>
    var userPlaylistMap: map<UserRef, seq<PlaylistRef>>
    var songLikeMap: map<SongRef, seq<UserRef>>

    var users: seq<User>
    var songs: seq<Song>
    var playlists: seq<Playlist>
    var albums: seq<Album>
    var artists: seq<Artist>

    /** Who each album was created for, which album each song was created in,
        and who created each playlist: what the proofs need to know about how
        the lists and maps were built. */
    ghost var albumArtist: seq<ArtistRef>
    ghost var songAlbum: seq<AlbumRef>
    ghost var playlistCreator: seq<UserRef>

    ghost function State(): StoreModel.Store
      reads this
    {
      StoreModel.Store(artistAlbumMap, albumSongMap, playlistSongMap, playlistListenerMap,
                       creatorPlaylistMap, userPlaylistMap, songLikeMap,
                       users, songs, playlists, albums, artists,
                       albumArtist, songAlbum, playlistCreator)
    }

    ghost predicate Valid()
      reads this
    {
      StoreModel.Valid(State())
    }

    constructor()
      ensures Valid() && State() == StoreModel.Empty()
    {
      artistAlbumMap := map[];
      albumSongMap := map[];
      playlistSongMap := map[];
      playlistListenerMap := map[];
      creatorPlaylistMap := map[];
      userPlaylistMap := map[];
      songLikeMap := map[];
      users := [];
      songs := [];
      playlists := [];
      albums := [];
      artists := [];
      albumArtist := [];
      songAlbum := [];
      playlistCreator := [];
      EmptyValid();
    }

    // Each operation below keeps the invariant and leaves the fields as the
    // state model prescribes; the `Apply…` method after it makes the update,
    // relying only on what the update itself needs.

    method CreateUser(name: string, mobile: string) returns (u: UserRef)
      requires Valid()
      modifies this
      ensures StoreModel.Step(State(), u) == StoreModel.CreateUser(old(State()), name, mobile)
      ensures Valid()
    {
      ghost var st := State();
      CreateUserValid(st, name, mobile);
      u := ApplyCreateUser(name, mobile);
    }

    method ApplyCreateUser(name: string, mobile: string) returns (u: UserRef)
      modifies this
      ensures StoreModel.Step(State(), u) == StoreModel.CreateUser(old(State()), name, mobile)
    {
      u := |users|;
      users := users + [User(name, mobile)];
    }

    method CreateArtist(name: string) returns (a: ArtistRef)
      requires Valid()
      modifies this
      ensures StoreModel.Step(State(), a) == StoreModel.CreateArtist(old(State()), name)
      ensures Valid()
    {
      ghost var st := State();
      CreateArtistValid(st, name);
      a := ApplyCreateArtist(name);
    }

    method ApplyCreateArtist(name: string) returns (a: ArtistRef)
      modifies this
      ensures StoreModel.Step(State(), a) == StoreModel.CreateArtist(old(State()), name)
    {
      a := |artists|;
      artists := artists + [Artist(name, 0)];
      artistAlbumMap := artistAlbumMap[a := []];
    }

    method CreateAlbum(title: string, artistName: string) returns (al: AlbumRef)
      requires Valid()
      modifies this
      ensures StoreModel.Step(State(), al) == StoreModel.CreateAlbum(old(State()), title, artistName)
      ensures Valid()
    {
      ghost var st := State();
      CreateAlbumValid(st, title, artistName);
      al := ApplyCreateAlbum(title, artistName);
    }

    method ApplyCreateAlbum(title: string, artistName: string) returns (al: AlbumRef)
      requires StoreModel.Entries(State())
      modifies this
      ensures StoreModel.Step(State(), al) == StoreModel.CreateAlbum(old(State()), title, artistName)
    {
      var found := FindFirst(ArtistNames(artists), artistName);
      var artist: ArtistRef;
      if found.None? {
        artist := ApplyCreateArtist(artistName);
      } else {
        artist := found.value;
      }
      al := AttachAlbum(artist, title);
    }

    /** A new album with no songs, appended to artist `a`'s albums. */
    method AttachAlbum(a: ArtistRef, title: string) returns (al: AlbumRef)
      requires a in artistAlbumMap
      modifies this
      ensures al == |old(albums)|
      ensures albums == old(albums) + [Album(title)]
      ensures albumSongMap == old(albumSongMap)[al := []]
      ensures artistAlbumMap == old(artistAlbumMap)[a := old(artistAlbumMap)[a] + [al]]
      ensures albumArtist == old(albumArtist) + [a]
      ensures unchanged(this`playlistSongMap, this`playlistListenerMap, this`creatorPlaylistMap, this`userPlaylistMap)
      ensures unchanged(this`songLikeMap, this`users, this`songs, this`playlists, this`artists, this`songAlbum, this`playlistCreator)
    {
      al := |albums|;
      albums := albums + [Album(title)];
      albumSongMap := albumSongMap[al := []];
      artistAlbumMap := artistAlbumMap[a := artistAlbumMap[a] + [al]];
      albumArtist := albumArtist + [a];
    }

    method CreateSong(title: string, albumName: string, length: int) returns (r: Result<SongRef>)
      requires Valid()
      modifies this
      ensures StoreModel.Step(State(), r) == StoreModel.CreateSong(old(State()), title, albumName, length)
      ensures Valid()
    {
      ghost var st := State();
      CreateSongValid(st, title, albumName, length);
      r := ApplyCreateSong(title, albumName, length);
    }

    method ApplyCreateSong(title: string, albumName: string, length: int) returns (r: Result<SongRef>)
      requires StoreModel.Entries(State())
      modifies this
      ensures StoreModel.Step(State(), r) == StoreModel.CreateSong(old(State()), title, albumName, length)
    {
      var found := FindFirst(AlbumTitles(albums), albumName);
      if found.None? {
        return Err(NotFound);
      }
      var s := AddSong(found.value, title, length);
      return Ok(s);
    }

    /** A new song with no likers, appended to the catalog and to album `al`. */
    method AddSong(al: AlbumRef, title: string, length: int) returns (s: SongRef)
      requires al in albumSongMap
      modifies this
      ensures s == |old(songs)|
      ensures songs == old(songs) + [Song(title, length, 0)]
      ensures albumSongMap == old(albumSongMap)[al := old(albumSongMap)[al] + [s]]
      ensures songLikeMap == old(songLikeMap)[s := []]
      ensures songAlbum == old(songAlbum) + [al]
      ensures unchanged(this`artistAlbumMap, this`playlistSongMap, this`playlistListenerMap, this`creatorPlaylistMap)
      ensures unchanged(this`userPlaylistMap, this`users, this`playlists, this`albums, this`artists, this`albumArtist, this`playlistCreator)
    {
      s := |songs|;
      songs := songs + [Song(title, length, 0)];
      albumSongMap := albumSongMap[al := albumSongMap[al] + [s]];
      songLikeMap := songLikeMap[s := []];
      songAlbum := songAlbum + [al];
    }

    method CreatePlaylistOnLength(mobile: string, title: string, length: int) returns (r: Result<PlaylistRef>)
      requires Valid()
      modifies this
      ensures StoreModel.Step(State(), r) == StoreModel.CreatePlaylistOnLength(old(State()), mobile, title, length)
      ensures Valid()
    {
      ghost var st := State();
      CreatePlaylistOnLengthValid(st, mobile, title, length);
      r := ApplyCreatePlaylistOnLength(mobile, title, length);
    }

    method ApplyCreatePlaylistOnLength(mobile: string, title: string, length: int) returns (r: Result<PlaylistRef>)
      requires |playlists| !in playlistSongMap
      modifies this
      ensures StoreModel.Step(State(), r) == StoreModel.CreatePlaylistOnLength(old(State()), mobile, title, length)
    {
      var found := FindFirst(Mobiles(users), mobile);
      if found.None? {
        return Err(NotFound);
      }
      var p := OpenPlaylist(found.value, title);
      playlistSongMap := CollectByLength(playlistSongMap, p, songs, length);
      return Ok(p);
    }

    method CreatePlaylistOnName(mobile: string, title: string, songTitles: seq<string>) returns (r: Result<PlaylistRef>)
      requires Valid()
      modifies this
      ensures StoreModel.Step(State(), r) == StoreModel.CreatePlaylistOnName(old(State()), mobile, title, songTitles)
      ensures Valid()
    {
      ghost var st := State();
      CreatePlaylistOnNameValid(st, mobile, title, songTitles);
      r := ApplyCreatePlaylistOnName(mobile, title, songTitles);
    }

    method ApplyCreatePlaylistOnName(mobile: string, title: string, songTitles: seq<string>) returns (r: Result<PlaylistRef>)
      requires |playlists| !in playlistSongMap
      modifies this
      ensures StoreModel.Step(State(), r) == StoreModel.CreatePlaylistOnName(old(State()), mobile, title, songTitles)
    {
      var found := FindFirst(Mobiles(users), mobile);
      if found.None? {
        return Err(NotFound);
      }
      var p := OpenPlaylist(found.value, title);
      playlistSongMap := CollectByTitles(playlistSongMap, p, songs, songTitles);
      return Ok(p);
    }

    /** The part both playlist constructors share: the playlist is appended,
        the user becomes its creator and its only listener, and it joins the
        user's playlists. */
    method OpenPlaylist(u: UserRef, title: string) returns (p: PlaylistRef)
      modifies this
      ensures p == |old(playlists)|
      ensures playlists == old(playlists) + [Playlist(title)]
      ensures creatorPlaylistMap == old(creatorPlaylistMap)[u := p]
      ensures userPlaylistMap == old(userPlaylistMap)[u := StoreModel.ListOrEmpty(old(userPlaylistMap), u) + [p]]
      ensures playlistListenerMap == old(playlistListenerMap)[p := [u]]
      ensures playlistCreator == old(playlistCreator) + [u]
      ensures unchanged(this`artistAlbumMap, this`albumSongMap, this`playlistSongMap, this`songLikeMap)
      ensures unchanged(this`users, this`songs, this`albums, this`artists, this`albumArtist, this`songAlbum)
    {
      p := |playlists|;
      AddOwnedPlaylist(u, p);
      playlists := playlists + [Playlist(title)];
      creatorPlaylistMap := creatorPlaylistMap[u := p];
      playlistListenerMap := playlistListenerMap[p := [u]];
      playlistCreator := playlistCreator + [u];
    }

    /** Playlist `p` joins user `u`'s playlists, the list being created if
        the user has none. */
    method AddOwnedPlaylist(u: UserRef, p: PlaylistRef)
      modifies this
      ensures userPlaylistMap == old(userPlaylistMap)[u := StoreModel.ListOrEmpty(old(userPlaylistMap), u) + [p]]
      ensures unchanged(this`artistAlbumMap, this`albumSongMap, this`playlistSongMap, this`songLikeMap)
      ensures unchanged(this`users, this`songs, this`albums, this`artists, this`albumArtist, this`songAlbum)
      ensures unchanged(this`playlists, this`creatorPlaylistMap, this`playlistListenerMap, this`playlistCreator)
    {
      if u !in userPlaylistMap {
        userPlaylistMap := userPlaylistMap[u := []];
      }
      userPlaylistMap := userPlaylistMap[u := userPlaylistMap[u] + [p]];
    }

    method FindPlaylist(mobile: string, playlistTitle: string) returns (r: Result<PlaylistRef>)
      requires Valid()
      modifies this
      ensures StoreModel.Step(State(), r) == StoreModel.FindPlaylist(old(State()), mobile, playlistTitle)
      ensures Valid()
    {
      ghost var st := State();
      FindPlaylistValid(st, mobile, playlistTitle);
      r := ApplyFindPlaylist(mobile, playlistTitle);
    }

    method ApplyFindPlaylist(mobile: string, playlistTitle: string) returns (r: Result<PlaylistRef>)
      requires StoreModel.KeysAre(playlistListenerMap, |playlists|)
      modifies this
      ensures StoreModel.Step(State(), r) == StoreModel.FindPlaylist(old(State()), mobile, playlistTitle)
    {
      var user := FindFirst(Mobiles(users), mobile);
      if user.None? {
        return Err(NotFound);
      }
      var found := FindFirst(PlaylistTitles(playlists), playlistTitle);
      if found.None? {
        return Err(NotFound);
      }
      r := Join(user.value, found.value);
    }

    /** User `u` joins playlist `p` unless already listening; the user's own
        playlist list is looked up only after joining, and is missing for a
        user who never created a playlist (a null dereference). */
    method Join(u: UserRef, p: PlaylistRef) returns (r: Result<PlaylistRef>)
      requires p in playlistListenerMap
      modifies this
      ensures StoreModel.Step(State(), r) == StoreModel.Join(old(State()), u, p)
    {
      var listeners := playlistListenerMap[p];
      if u !in listeners {
        playlistListenerMap := playlistListenerMap[p := listeners + [u]];
        if u !in userPlaylistMap {
          return Err(NullPointer);
        }
        userPlaylistMap := userPlaylistMap[u := userPlaylistMap[u] + [p]];
      }
      return Ok(p);
    }

    method LikeSong(mobile: string, songTitle: string) returns (r: Result<SongRef>)
      requires Valid()
      modifies this
      ensures StoreModel.Step(State(), r) == StoreModel.LikeSong(old(State()), mobile, songTitle)
      ensures Valid()
    {
      ghost var st := State();
      LikeSongValid(st, mobile, songTitle);
      r := ApplyLikeSong(mobile, songTitle);
    }

    method ApplyLikeSong(mobile: string, songTitle: string) returns (r: Result<SongRef>)
      requires StoreModel.Entries(State()) && StoreModel.Ownership(State())
      modifies this
      ensures StoreModel.Step(State(), r) == StoreModel.LikeSong(old(State()), mobile, songTitle)
    {
      ghost var st := State();
      var user := FindFirst(Mobiles(users), mobile);
      if user.None? {
        return Err(NotFound);
      }
      var song := FindFirst(SongTitles(songs), songTitle);
      if song.None? {
        return Err(NotFound);
      }
      var u, s := user.value, song.value;
      if u !in songLikeMap[s] {
        RecordLike(u, s, st);
      }
      return Ok(s);
    }

    /** User `u`'s first like of song `s`: the user joins the song's likers,
        the song gets one more like, and so does the artist the scan over
        every artist's albums finds it under. */
    method RecordLike(u: UserRef, s: SongRef, ghost st: StoreModel.Store)
      requires StoreModel.Entries(st) && StoreModel.Ownership(st) && st == State() && s < |songs|
      modifies this
      ensures State() == StoreModel.RecordLike(st, u, s, st.albumArtist[st.songAlbum[s]])
    {
      var tallies := CreditOwner(artists, artistAlbumMap, albumSongMap, s, st);
      StoreLike(u, s, tallies);
    }

    /** The likers, songs and artists after a like: the user joins song `s`'s
        likers, the song gets one more like, and the artists' like counts
        become `tallies`. */
    method StoreLike(u: UserRef, s: SongRef, tallies: seq<Artist>)
      requires s in songLikeMap && s < |songs|
      modifies this
      ensures State() == old(State()).(songLikeMap := old(songLikeMap)[s := old(songLikeMap)[s] + [u]],
                                       songs := old(songs)[s := old(songs)[s].(likes := old(songs)[s].likes + 1)],
                                       artists := tallies)
    {
      songLikeMap := songLikeMap[s := songLikeMap[s] + [u]];
      songs := songs[s := songs[s].(likes := songs[s].likes + 1)];
      artists := tallies;
    }

    method MostPopularArtist() returns (name: Option<string>)
      ensures name == PopularArtistName(artists)
    {
      ghost var likes := ArtistLikes(artists);
      var popular: Option<ArtistRef> := None;
      var maxLikes := 0;
      var i := 0;
      while i < |artists|
        invariant 0 <= i <= |artists|
        invariant popular == FirstStrictMax(likes[..i])
        invariant maxLikes == if popular.Some? then artists[popular.value].likes else 0
      {
        assert likes[..i + 1][..i] == likes[..i];
        if artists[i].likes > maxLikes {
          popular := Some(i);
          maxLikes := artists[i].likes;
        }
        i := i + 1;
      }
      assert likes[..i] == likes;
      if popular.None? {
        return None;
      }
      return Some(artists[popular.value].name);
    }

    method MostPopularSong() returns (title: Option<string>)
      ensures title == PopularSongTitle(songs)
    {
      ghost var likes := SongLikes(songs);
      var popular: Option<SongRef> := None;
      var maxLikes := 0;
      var i := 0;
      while i < |songs|
        invariant 0 <= i <= |songs|
        invariant popular == FirstStrictMax(likes[..i])
        invariant maxLikes == if popular.Some? then songs[popular.value].likes else 0
      {
        assert likes[..i + 1][..i] == likes[..i];
        if songs[i].likes > maxLikes {
          popular := Some(i);
          maxLikes := songs[i].likes;
        }
        i := i + 1;
      }
      assert likes[..i] == likes;
      if popular.None? {
        return None;
      }
      return Some(songs[popular.value].title);
    }
  }
}
