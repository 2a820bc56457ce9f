/** What the repository's operations promise, proved on the state model:
    the invariant holds from the empty store on, lookups fail without
    changing anything, subscribing and liking are idempotent, and artist
    likes always add up to song likes. */
module StoreProperties {
  import opened Domain
  import opened Catalog
  import opened Tally
  import opened StoreModel

  // ------------------------------------------------- the invariant is kept

  lemma EmptyValid()
    ensures Valid(Empty())
  {
  }

  lemma KeysAreReplace<V>(m: map<nat, V>, n: int, k: nat, v: V)
    requires KeysAre(m, n) && k in m
    ensures KeysAre(m[k := v], n)
  {
  }

  lemma KeysAreGrow<V>(m: map<nat, V>, n: nat, v: V)
    requires KeysAre(m, n)
    ensures KeysAre(m[n := v], n + 1)
  {
  }

  lemma KeysBelowPut<V>(m: map<nat, V>, n: int, n': int, k: nat, v: V)
    requires KeysBelow(m, n) && n <= n' && k < n'
    ensures KeysBelow(m[k := v], n') && KeysBelow(m, n')
  {
  }

  lemma ValuesBelowPut(m: map<nat, nat>, n: int, n': int, k: nat, v: nat)
    requires ValuesBelow(m, n) && n <= n' && v < n'
    ensures ValuesBelow(m[k := v], n')
  {
  }

  lemma RefsBelowPut(m: map<nat, seq<nat>>, n: int, n': int, k: nat, v: seq<nat>)
    requires RefsBelow(m, n) && n <= n'
    requires forall i :: 0 <= i < |v| ==> v[i] < n'
    ensures RefsBelow(m[k := v], n') && RefsBelow(m, n')
  {
  }

  /** Adding one more song to a new playlist's list, creating the list when
      it is absent, is the same as having selected that song too. */
  lemma PutMembersAppend(m: map<PlaylistRef, seq<SongRef>>, p: PlaylistRef, chosen: seq<SongRef>, s: SongRef)
    requires p !in m
    ensures var m1 := PutMembers(m, p, chosen);
      PutMembers(m, p, chosen + [s]) == m1[p := ListOrEmpty(m1, p) + [s]]
  {
  }

  /** Ownership only looks at the album and song lists, the two relation maps
      that record them and the number of artists and songs. */
  lemma OwnershipKept(st: Store, st': Store)
    requires Ownership(st)
    requires st'.artistAlbumMap == st.artistAlbumMap && st'.albumSongMap == st.albumSongMap
    requires st'.albumArtist == st.albumArtist && st'.songAlbum == st.songAlbum
    requires st'.albums == st.albums && |st'.songs| == |st.songs| && |st'.artists| == |st.artists|
    ensures Ownership(st') && SongOwners(st') == SongOwners(st)
  {
  }

  lemma LikesKept(st: Store, st': Store)
    requires Ownership(st) && LikesTally(st) && Ownership(st') && SongOwners(st') == SongOwners(st)
    requires st'.songs == st.songs && st'.artists == st.artists && st'.songLikeMap == st.songLikeMap
    ensures LikesTally(st')
  {
  }

  lemma ListenersKept(st: Store, st': Store)
    requires Listeners(st)
    requires st'.playlistListenerMap == st.playlistListenerMap && st'.playlistCreator == st.playlistCreator
    requires st'.playlists == st.playlists
    ensures Listeners(st')
  {
  }

  /** The parts of the invariant that the operations below do not touch. */
  lemma OwnershipLikesListenersKept(st: Store, st': Store)
    requires Valid(st)
    requires st'.artistAlbumMap == st.artistAlbumMap && st'.albumSongMap == st.albumSongMap
    requires st'.albumArtist == st.albumArtist && st'.songAlbum == st.songAlbum
    requires st'.albums == st.albums && st'.songs == st.songs && st'.artists == st.artists
    requires st'.songLikeMap == st.songLikeMap
    requires st'.playlistListenerMap == st.playlistListenerMap && st'.playlistCreator == st.playlistCreator
    requires st'.playlists == st.playlists
    ensures Ownership(st') && LikesTally(st') && Listeners(st')
  {
    OwnershipKept(st, st');
    LikesKept(st, st');
    ListenersKept(st, st');
  }

  lemma CreateUserValid(st: Store, name: string, mobile: string)
    requires Valid(st)
    ensures Valid(CreateUser(st, name, mobile).next)
  {
    var st' := CreateUser(st, name, mobile).next;
    assert Entries(st');
    OwnershipLikesListenersKept(st, st');
  }

  lemma CreateArtistEntries(st: Store, name: string)
    requires Entries(st)
    ensures Entries(CreateArtist(st, name).next)
  {
    KeysAreGrow(st.artistAlbumMap, |st.artists|, []);
  }

  lemma CreateArtistOwnership(st: Store, name: string)
    requires Entries(st) && Ownership(st)
    ensures Ownership(CreateArtist(st, name).next)
    ensures SongOwners(CreateArtist(st, name).next) == SongOwners(st)
  {
  }

  /** The new artist owns no song, so its zero likes are its owned likes. */
  lemma CreateArtistTally(st: Store, name: string)
    requires Entries(st) && Ownership(st) && LikesTally(st)
    ensures Ownership(CreateArtist(st, name).next) && LikesTally(CreateArtist(st, name).next)
  {
    var st' := CreateArtist(st, name).next;
    CreateArtistOwnership(st, name);
    OwnedLikesUnowned(st.songs, SongOwners(st), |st.artists|);
    assert st'.songs == st.songs && st'.songLikeMap == st.songLikeMap;
    assert forall a :: 0 <= a < |st.artists| ==> st'.artists[a] == st.artists[a];
  }

  lemma CreateArtistValid(st: Store, name: string)
    requires Valid(st)
    ensures Valid(CreateArtist(st, name).next)
  {
    var st' := CreateArtist(st, name).next;
    CreateArtistEntries(st, name);
    CreateArtistTally(st, name);
    ListenersKept(st, st');
  }

  lemma AttachAlbumEntries(st: Store, a: ArtistRef, title: string)
    requires Entries(st) && a < |st.artists|
    ensures Entries(AttachAlbum(st, a, title).next)
  {
    KeysAreGrow(st.albumSongMap, |st.albums|, []);
    KeysAreReplace(st.artistAlbumMap, |st.artists|, a, st.artistAlbumMap[a] + [|st.albums|]);
  }

  lemma AttachAlbumOwnership(st: Store, a: ArtistRef, title: string)
    requires Entries(st) && Ownership(st) && a < |st.artists|
    ensures Ownership(AttachAlbum(st, a, title).next)
    ensures SongOwners(AttachAlbum(st, a, title).next) == SongOwners(st)
  {
    AttachAlbumAlbumsOwned(st, a, title);
    AttachAlbumSongsOwned(st, a, title);
  }

  lemma AttachAlbumAlbumsOwned(st: Store, a: ArtistRef, title: string)
    requires KeysAre(st.artistAlbumMap, |st.artists|) && AlbumsOwned(st) && a < |st.artists|
    ensures AlbumsOwned(AttachAlbum(st, a, title).next)
  {
    var st' := AttachAlbum(st, a, title).next;
    var al := |st.albums|;
    assert st'.artistAlbumMap[a] == st.artistAlbumMap[a] + [al];
  }

  lemma AttachAlbumSongsOwned(st: Store, a: ArtistRef, title: string)
    requires KeysAre(st.albumSongMap, |st.albums|) && SongsOwned(st) && a in st.artistAlbumMap
    ensures SongsOwned(AttachAlbum(st, a, title).next)
  {
  }

  lemma AttachAlbumValid(st: Store, a: ArtistRef, title: string)
    requires Valid(st) && a < |st.artists|
    ensures Valid(AttachAlbum(st, a, title).next)
  {
    var st' := AttachAlbum(st, a, title).next;
    AttachAlbumEntries(st, a, title);
    AttachAlbumOwnership(st, a, title);
    LikesKept(st, st');
    ListenersKept(st, st');
  }

  lemma CreateAlbumValid(st: Store, title: string, artistName: string)
    requires Valid(st)
    ensures Valid(CreateAlbum(st, title, artistName).next)
  {
    match FirstIndexOf(ArtistNames(st.artists), artistName)
    case Some(a) =>
      AttachAlbumValid(st, a, title);
    case None =>
      CreateArtistValid(st, artistName);
      AttachAlbumValid(CreateArtist(st, artistName).next, |st.artists|, title);
  }

  lemma AddSongEntries(st: Store, al: AlbumRef, title: string, length: int)
    requires Entries(st) && al < |st.albums|
    ensures Entries(AddSong(st, al, title, length))
  {
  }

  lemma AddSongOwnership(st: Store, al: AlbumRef, title: string, length: int)
    requires Entries(st) && Ownership(st) && al < |st.albums|
    ensures Ownership(AddSong(st, al, title, length))
    ensures SongOwners(AddSong(st, al, title, length)) == SongOwners(st) + [st.albumArtist[al]]
  {
    AddSongSongsOwned(st, al, title, length);
  }

  lemma AddSongSongsOwned(st: Store, al: AlbumRef, title: string, length: int)
    requires KeysAre(st.albumSongMap, |st.albums|) && SongsOwned(st) && al < |st.albums|
    ensures SongsOwned(AddSong(st, al, title, length))
  {
    var st' := AddSong(st, al, title, length);
    assert st'.albumSongMap[al] == st.albumSongMap[al] + [|st.songs|];
  }

  lemma AddSongTally(st: Store, al: AlbumRef, title: string, length: int)
    requires Entries(st) && Ownership(st) && LikesTally(st) && al < |st.albums|
    ensures Ownership(AddSong(st, al, title, length)) && LikesTally(AddSong(st, al, title, length))
  {
    var st' := AddSong(st, al, title, length);
    var x := Song(title, length, 0);
    AddSongOwnership(st, al, title, length);
    assert st'.songs == st.songs + [x];
    forall a | 0 <= a < |st'.artists|
      ensures st'.artists[a].likes == OwnedLikes(st'.songs, SongOwners(st'), a)
    {
      OwnedLikesAppend(st.songs, SongOwners(st), x, st.albumArtist[al], a);
    }
  }

  lemma CreateSongValid(st: Store, title: string, albumName: string, length: int)
    requires Valid(st)
    ensures Valid(CreateSong(st, title, albumName, length).next)
  {
    match FirstIndexOf(AlbumTitles(st.albums), albumName)
    case None =>
    case Some(al) =>
      AddSongEntries(st, al, title, length);
      AddSongTally(st, al, title, length);
      ListenersKept(st, AddSong(st, al, title, length));
  }

  lemma AddPlaylistEntries(st: Store, u: UserRef, title: string, members: seq<SongRef>)
    requires Entries(st)
    requires u < |st.users|
    requires forall k :: 0 <= k < |members| ==> members[k] < |st.songs|
    ensures Entries(AddPlaylist(st, u, title, members))
  {
    var st' := AddPlaylist(st, u, title, members);
    var p := |st.playlists|;
    KeysAreGrow(st.playlistListenerMap, p, [u]);
    RefsBelowPut(st.playlistListenerMap, |st.users|, |st.users|, p, [u]);
    if members != [] {
      KeysBelowPut(st.playlistSongMap, p, p + 1, p, members);
      RefsBelowPut(st.playlistSongMap, |st.songs|, |st.songs|, p, members);
    } else {
      KeysBelowPut(st.playlistSongMap, p, p + 1, p, members);
    }
    KeysBelowPut(st.creatorPlaylistMap, |st.users|, |st.users|, u, p);
    ValuesBelowPut(st.creatorPlaylistMap, p, p + 1, u, p);
    var mine := ListOrEmpty(st.userPlaylistMap, u) + [p];
    KeysBelowPut(st.userPlaylistMap, |st.users|, |st.users|, u, mine);
    RefsBelowPut(st.userPlaylistMap, p, p + 1, u, mine);
  }

  lemma AddPlaylistListeners(st: Store, u: UserRef, title: string, members: seq<SongRef>)
    requires Valid(st)
    ensures Listeners(AddPlaylist(st, u, title, members))
  {
  }

  lemma AddPlaylistValid(st: Store, u: UserRef, title: string, members: seq<SongRef>)
    requires Valid(st)
    requires u < |st.users|
    requires forall k :: 0 <= k < |members| ==> members[k] < |st.songs|
    ensures Valid(AddPlaylist(st, u, title, members))
  {
    var st' := AddPlaylist(st, u, title, members);
    AddPlaylistEntries(st, u, title, members);
    OwnershipKept(st, st');
    LikesKept(st, st');
    AddPlaylistListeners(st, u, title, members);
  }

  lemma CreatePlaylistOnLengthValid(st: Store, mobile: string, title: string, length: int)
    requires Valid(st)
    ensures Valid(CreatePlaylistOnLength(st, mobile, title, length).next)
  {
    var found := FirstIndexOf(Mobiles(st.users), mobile);
    if found.Some? {
      SongsOfLengthMembers(st.songs, length);
      AddPlaylistValid(st, found.value, title, SongsOfLength(st.songs, length));
    }
  }

  lemma CreatePlaylistOnNameValid(st: Store, mobile: string, title: string, songTitles: seq<string>)
    requires Valid(st)
    ensures Valid(CreatePlaylistOnName(st, mobile, title, songTitles).next)
  {
    var found := FirstIndexOf(Mobiles(st.users), mobile);
    if found.Some? {
      var members := SongsForTitles(st.songs, songTitles);
      forall k | 0 <= k < |members|
        ensures members[k] < |st.songs|
      {
        SongsForTitlesMembers(st.songs, songTitles, members[k]);
      }
      AddPlaylistValid(st, found.value, title, members);
    }
  }

  lemma SubscribeEntries(st: Store, u: UserRef, p: PlaylistRef)
    requires Entries(st) && u < |st.users| && p < |st.playlists|
    ensures Entries(Subscribe(st, u, p))
    ensures u in st.userPlaylistMap ==>
      Entries(Subscribe(st, u, p).(userPlaylistMap := st.userPlaylistMap[u := st.userPlaylistMap[u] + [p]]))
  {
    var v := st.playlistListenerMap[p] + [u];
    KeysAreReplace(st.playlistListenerMap, |st.playlists|, p, v);
    RefsBelowPut(st.playlistListenerMap, |st.users|, |st.users|, p, v);
    if u in st.userPlaylistMap {
      var mine := st.userPlaylistMap[u] + [p];
      KeysBelowPut(st.userPlaylistMap, |st.users|, |st.users|, u, mine);
      RefsBelowPut(st.userPlaylistMap, |st.playlists|, |st.playlists|, u, mine);
    }
  }

  /** Appending a user who is not yet a listener keeps listeners distinct. */
  lemma SubscribeListeners(st: Store, u: UserRef, p: PlaylistRef)
    requires Listeners(st) && p in st.playlistListenerMap
    requires u !in st.playlistListenerMap[p]
    ensures Listeners(Subscribe(st, u, p))
  {
    var v := st.playlistListenerMap[p] + [u];
    assert v[0] == st.playlistListenerMap[p][0];
    assert NoDup(v);
  }

  lemma SubscribeValid(st: Store, u: UserRef, p: PlaylistRef)
    requires Valid(st) && u < |st.users| && p < |st.playlists|
    requires u !in st.playlistListenerMap[p]
    ensures Valid(Subscribe(st, u, p))
    ensures u in st.userPlaylistMap ==>
      Valid(Subscribe(st, u, p).(userPlaylistMap := st.userPlaylistMap[u := st.userPlaylistMap[u] + [p]]))
  {
    var st1 := Subscribe(st, u, p);
    SubscribeEntries(st, u, p);
    OwnershipKept(st, st1);
    LikesKept(st, st1);
    SubscribeListeners(st, u, p);
    if u in st.userPlaylistMap {
      var st2 := st1.(userPlaylistMap := st.userPlaylistMap[u := st.userPlaylistMap[u] + [p]]);
      OwnershipKept(st1, st2);
      LikesKept(st1, st2);
      ListenersKept(st1, st2);
    }
  }

  lemma FindPlaylistValid(st: Store, mobile: string, title: string)
    requires Valid(st)
    ensures Valid(FindPlaylist(st, mobile, title).next)
  {
    match FirstIndexOf(Mobiles(st.users), mobile)
    case None =>
    case Some(u) =>
      match FirstIndexOf(PlaylistTitles(st.playlists), title)
      case None =>
      case Some(p) =>
        if u !in st.playlistListenerMap[p] {
          SubscribeValid(st, u, p);
        }
  }

  lemma RecordLikeEntries(st: Store, u: UserRef, s: SongRef, a: ArtistRef)
    requires Entries(st) && u < |st.users| && s < |st.songs| && a < |st.artists|
    ensures Entries(RecordLike(st, u, s, a))
  {
    KeysAreReplace(st.songLikeMap, |st.songs|, s, st.songLikeMap[s] + [u]);
    RefsBelowPut(st.songLikeMap, |st.users|, |st.users|, s, st.songLikeMap[s] + [u]);
  }

  /** A user who had not liked the song joins its likers as its like count
      grows by one. */
  lemma RecordLikeLikers(st: Store, u: UserRef, s: SongRef, a: ArtistRef)
    requires LikersCounted(st) && s in st.songLikeMap && s < |st.songs| && a < |st.artists|
    requires u !in st.songLikeMap[s]
    ensures LikersCounted(RecordLike(st, u, s, a))
  {
    var likers := st.songLikeMap[s] + [u];
    assert NoDup(likers);
  }

  lemma RecordLikeTally(st: Store, u: UserRef, s: SongRef)
    requires Entries(st) && Ownership(st) && LikesTally(st) && s < |st.songs|
    requires u !in st.songLikeMap[s]
    ensures var st' := RecordLike(st, u, s, st.albumArtist[st.songAlbum[s]]);
      Ownership(st') && LikesTally(st')
  {
    var st' := RecordLike(st, u, s, st.albumArtist[st.songAlbum[s]]);
    OwnershipKept(st, st');
    RecordLikeLikers(st, u, s, st.albumArtist[st.songAlbum[s]]);
    var owners := SongOwners(st);
    forall a | 0 <= a < |st'.artists|
      ensures st'.artists[a].likes == OwnedLikes(st'.songs, owners, a)
    {
      OwnedLikesBump(st.songs, owners, s, a);
    }
  }

  lemma LikeSongValid(st: Store, mobile: string, title: string)
    requires Valid(st)
    ensures Valid(LikeSong(st, mobile, title).next)
  {
    match FirstIndexOf(Mobiles(st.users), mobile)
    case None =>
    case Some(u) =>
      match FirstIndexOf(SongTitles(st.songs), title)
      case None =>
      case Some(s) =>
        if u !in st.songLikeMap[s] {
          var a := st.albumArtist[st.songAlbum[s]];
          RecordLikeEntries(st, u, s, a);
          RecordLikeTally(st, u, s);
          ListenersKept(st, RecordLike(st, u, s, a));
        }
  }
}
