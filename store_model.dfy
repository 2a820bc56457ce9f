/** The repository's state as a value, and each operation as a function from
    the state before to the state after and the operation's answer. */
module StoreModel {
  import opened Domain
  import opened Catalog
  import opened Tally

  /** The repository's seven relation maps and five entity lists, plus the
      ownership the source recovers by scanning (which artist an album was
      created for, which album a song was created in) and who created each
      playlist. */
  datatype Store = Store(
    artistAlbumMap: map<ArtistRef, seq<AlbumRef>>,
    albumSongMap: map<AlbumRef, seq<SongRef>>,
    playlistSongMap: map<PlaylistRef, seq<SongRef>>,
    playlistListenerMap: map<PlaylistRef, seq<UserRef>>,
    creatorPlaylistMap: map<UserRef, PlaylistRef>,
    userPlaylistMap: map<UserRef, seq<PlaylistRef>>,
    songLikeMap: map<SongRef, seq<UserRef>>,
    users: seq<User>,
    songs: seq<Song>,
    playlists: seq<Playlist>,
    albums: seq<Album>,
    artists: seq<Artist>,
    albumArtist: seq<ArtistRef>,
    songAlbum: seq<AlbumRef>,
    playlistCreator: seq<UserRef>)

  /** The state after an operation, and what the operation returns. */
  datatype Step<T> = Step(next: Store, out: T)

  function Empty(): Store {
    Store(map[], map[], map[], map[], map[], map[], map[], [], [], [], [], [], [], [], [])
  }

  /** `putIfAbsent(k, new ArrayList<>())` followed by `get(k)`. */
  function ListOrEmpty<K, V>(m: map<K, seq<V>>, k: K): seq<V> {
    if k in m then m[k] else []
  }

  // ---------------------------------------------------------------- invariant

  /** The keys of `m` are exactly 0 .. n-1. */
  ghost predicate KeysAre<V>(m: map<nat, V>, n: int) {
    forall k :: k in m <==> 0 <= k < n
  }

  ghost predicate KeysBelow<V>(m: map<nat, V>, n: int) {
    forall k :: k in m ==> k < n
  }

  ghost predicate ValuesBelow(m: map<nat, nat>, n: int) {
    forall k :: k in m ==> m[k] < n
  }

  /** Every reference listed in `m` is below `n`. */
  ghost predicate RefsBelow(m: map<nat, seq<nat>>, n: int) {
    forall k :: k in m ==> forall i :: 0 <= i < |m[k]| ==> m[k][i] < n
  }

  /** Every artist, album, song and playlist has its relation entry, and every
      reference held in a relation names an existing entity. */
  ghost predicate Entries(st: Store) {
    KeysAre(st.artistAlbumMap, |st.artists|) &&
    KeysAre(st.albumSongMap, |st.albums|) &&
    KeysAre(st.songLikeMap, |st.songs|) &&
    KeysAre(st.playlistListenerMap, |st.playlists|) &&
    KeysBelow(st.playlistSongMap, |st.playlists|) &&
    RefsBelow(st.playlistSongMap, |st.songs|) &&
    RefsBelow(st.playlistListenerMap, |st.users|) &&
    RefsBelow(st.songLikeMap, |st.users|) &&
    KeysBelow(st.creatorPlaylistMap, |st.users|) &&
    ValuesBelow(st.creatorPlaylistMap, |st.playlists|) &&
    KeysBelow(st.userPlaylistMap, |st.users|) &&
    RefsBelow(st.userPlaylistMap, |st.playlists|)
  }

  /** Every album sits in exactly one artist's album list, and every song in
      exactly one album's song list: the lists agree with the recorded owners. */
  ghost predicate Ownership(st: Store) {
    AlbumsOwned(st) && SongsOwned(st)
  }

  /** Every album's recorded artist exists and lists it, and every album an
      artist lists is recorded as that artist's. */
  ghost predicate AlbumsOwned(st: Store) {
    |st.albumArtist| == |st.albums| &&
    (forall al :: 0 <= al < |st.albums| ==> st.albumArtist[al] < |st.artists|) &&
    (forall a :: a in st.artistAlbumMap ==>
       forall k :: 0 <= k < |st.artistAlbumMap[a]| ==>
         st.artistAlbumMap[a][k] < |st.albums| && st.albumArtist[st.artistAlbumMap[a][k]] == a) &&
    (forall al :: 0 <= al < |st.albums| ==>
       st.albumArtist[al] in st.artistAlbumMap && al in st.artistAlbumMap[st.albumArtist[al]])
  }

  /** Every song's recorded album exists and lists it, and every song an
      album lists is recorded as that album's. */
  ghost predicate SongsOwned(st: Store) {
    |st.songAlbum| == |st.songs| &&
    (forall s :: 0 <= s < |st.songs| ==> st.songAlbum[s] < |st.albums|) &&
    (forall al :: al in st.albumSongMap ==>
       forall k :: 0 <= k < |st.albumSongMap[al]| ==>
         st.albumSongMap[al][k] < |st.songs| && st.songAlbum[st.albumSongMap[al][k]] == al) &&
    (forall s :: 0 <= s < |st.songs| ==>
       st.songAlbum[s] in st.albumSongMap && s in st.albumSongMap[st.songAlbum[s]])
  }

  /** The artist owning each song: the artist of the song's album. */
  function SongOwners(st: Store): (r: seq<ArtistRef>)
    requires Ownership(st)
    ensures |r| == |st.songs|
  {
    seq(|st.songs|, s requires 0 <= s < |st.songs| => st.albumArtist[st.songAlbum[s]])
  }

  /** A song's likes are the number of distinct users who liked it, and an
      artist's likes are the likes of the songs on its albums. */
  ghost predicate LikesTally(st: Store)
    requires Ownership(st)
  {
    LikersCounted(st) && ArtistsCounted(st)
  }

  /** Each song's likers are distinct and as many as its likes. */
  ghost predicate LikersCounted(st: Store) {
    forall s :: s in st.songLikeMap ==>
      s < |st.songs| && NoDup(st.songLikeMap[s]) && |st.songLikeMap[s]| == st.songs[s].likes
  }

  /** Each artist's likes are the likes of the songs it owns. */
  ghost predicate ArtistsCounted(st: Store)
    requires Ownership(st)
  {
    forall a :: 0 <= a < |st.artists| ==> st.artists[a].likes == OwnedLikes(st.songs, SongOwners(st), a)
  }

  /** Each playlist's listeners are distinct and start with its creator. */
  ghost predicate Listeners(st: Store) {
    |st.playlistCreator| == |st.playlists| &&
    forall p :: p in st.playlistListenerMap ==>
      p < |st.playlists| &&
      |st.playlistListenerMap[p]| > 0 && st.playlistListenerMap[p][0] == st.playlistCreator[p] &&
      NoDup(st.playlistListenerMap[p])
  }

  ghost predicate Valid(st: Store) {
    Entries(st) && Ownership(st) && LikesTally(st) && Listeners(st)
  }

  // --------------------------------------------------------------- operations

  function CreateUser(st: Store, name: string, mobile: string): Step<UserRef> {
    Step(st.(users := st.users + [User(name, mobile)]), |st.users|)
  }

  function CreateArtist(st: Store, name: string): Step<ArtistRef> {
    var a := |st.artists|;
    Step(st.(artists := st.artists + [Artist(name, 0)],
             artistAlbumMap := st.artistAlbumMap[a := []]), a)
  }

  /** A new album with an empty song list, appended to artist `a`'s albums. */
  function AttachAlbum(st: Store, a: ArtistRef, title: string): Step<AlbumRef>
    requires a in st.artistAlbumMap
  {
    var al := |st.albums|;
    Step(st.(albums := st.albums + [Album(title)],
             albumSongMap := st.albumSongMap[al := []],
             artistAlbumMap := st.artistAlbumMap[a := st.artistAlbumMap[a] + [al]],
             albumArtist := st.albumArtist + [a]), al)
  }

  /** The album goes to the first artist with that name, or to a new artist
      when there is none. */
  function CreateAlbum(st: Store, title: string, artistName: string): Step<AlbumRef>
    requires Entries(st)
  {
    match FirstIndexOf(ArtistNames(st.artists), artistName)
    case Some(a) => AttachAlbum(st, a, title)
    case None => AttachAlbum(CreateArtist(st, artistName).next, |st.artists|, title)
  }

  /** A new song with no likers, appended to album `al`'s songs. */
  function AddSong(st: Store, al: AlbumRef, title: string, length: int): Store
    requires al in st.albumSongMap
  {
    var s := |st.songs|;
    st.(songs := st.songs + [Song(title, length, 0)],
        albumSongMap := st.albumSongMap[al := st.albumSongMap[al] + [s]],
        songLikeMap := st.songLikeMap[s := []],
        songAlbum := st.songAlbum + [al])
  }

  function CreateSong(st: Store, title: string, albumName: string, length: int): (r: Step<Result<SongRef>>)
    requires Entries(st)
    ensures r.out.Err? <==> forall al :: 0 <= al < |st.albums| ==> st.albums[al].title != albumName
    ensures r.out.Err? ==> r.out.error == NotFound && r.next == st
  {
    match FirstIndexOf(AlbumTitles(st.albums), albumName)
    case None =>
      assert forall al :: 0 <= al < |st.albums| ==> AlbumTitles(st.albums)[al] == st.albums[al].title;
      Step(st, Err(NotFound))
    case Some(al) => Step(AddSong(st, al, title, length), Ok(|st.songs|))
  }

  /** The song map after a new playlist's songs are added one by one: the
      playlist gets an entry with its first song, so none when it has none. */
  function PutMembers(m: map<PlaylistRef, seq<SongRef>>, p: PlaylistRef, members: seq<SongRef>): map<PlaylistRef, seq<SongRef>> {
    if members == [] then m else m[p := members]
  }

  /** What both playlist constructors do once the creator `u` is found. */
  function AddPlaylist(st: Store, u: UserRef, title: string, members: seq<SongRef>): Store {
    var p := |st.playlists|;
    st.(playlists := st.playlists + [Playlist(title)],
        creatorPlaylistMap := st.creatorPlaylistMap[u := p],
        userPlaylistMap := st.userPlaylistMap[u := ListOrEmpty(st.userPlaylistMap, u) + [p]],
        playlistListenerMap := st.playlistListenerMap[p := [u]],
        playlistSongMap := PutMembers(st.playlistSongMap, p, members),
        playlistCreator := st.playlistCreator + [u])
  }

  function CreatePlaylistOnLength(st: Store, mobile: string, title: string, length: int): Step<Result<PlaylistRef>> {
    match FirstIndexOf(Mobiles(st.users), mobile)
    case None => Step(st, Err(NotFound))
    case Some(u) => Step(AddPlaylist(st, u, title, SongsOfLength(st.songs, length)), Ok(|st.playlists|))
  }

  function CreatePlaylistOnName(st: Store, mobile: string, title: string, songTitles: seq<string>): Step<Result<PlaylistRef>> {
    match FirstIndexOf(Mobiles(st.users), mobile)
    case None => Step(st, Err(NotFound))
    case Some(u) => Step(AddPlaylist(st, u, title, SongsForTitles(st.songs, songTitles)), Ok(|st.playlists|))
  }

  /** `u` joins the listeners of playlist `p`. */
  function Subscribe(st: Store, u: UserRef, p: PlaylistRef): Store
    requires p in st.playlistListenerMap
  {
    st.(playlistListenerMap := st.playlistListenerMap[p := st.playlistListenerMap[p] + [u]])
  }

  /** User `u` joins playlist `p` unless already listening. The source
      appends the user to the listeners before it looks up the user's own
      playlist list, so a user who never created a playlist ends up a
      listener and the call fails with a null dereference. */
  function Join(st: Store, u: UserRef, p: PlaylistRef): Step<Result<PlaylistRef>>
    requires p in st.playlistListenerMap
  {
    if u in st.playlistListenerMap[p] then Step(st, Ok(p))
    else
      var st1 := Subscribe(st, u, p);
      if u in st.userPlaylistMap then
        Step(st1.(userPlaylistMap := st.userPlaylistMap[u := st.userPlaylistMap[u] + [p]]), Ok(p))
      else
        Step(st1, Err(NullPointer))
  }

  /** Subscribes the first user with that mobile to the first playlist with
      that title. */
  function FindPlaylist(st: Store, mobile: string, title: string): Step<Result<PlaylistRef>>
    requires KeysAre(st.playlistListenerMap, |st.playlists|)
  {
    match FirstIndexOf(Mobiles(st.users), mobile)
    case None => Step(st, Err(NotFound))
    case Some(u) =>
      match FirstIndexOf(PlaylistTitles(st.playlists), title)
      case None => Step(st, Err(NotFound))
      case Some(p) => Join(st, u, p)
  }

  /** The test `likeSong` applies to each artist: one of its albums lists song `s`. */
  ghost predicate ListsSong(st: Store, a: ArtistRef, s: SongRef)
    requires a in st.artistAlbumMap
    requires forall k :: 0 <= k < |st.artistAlbumMap[a]| ==> st.artistAlbumMap[a][k] in st.albumSongMap
  {
    exists k :: 0 <= k < |st.artistAlbumMap[a]| && s in st.albumSongMap[st.artistAlbumMap[a][k]]
  }

  /** User `u`'s first like of song `s`, owned by artist `a`: the user joins
      the song's likers, and the song and the artist get one like each. */
  function RecordLike(st: Store, u: UserRef, s: SongRef, a: ArtistRef): Store
    requires s in st.songLikeMap && s < |st.songs| && a < |st.artists|
  {
    st.(songLikeMap := st.songLikeMap[s := st.songLikeMap[s] + [u]],
        songs := st.songs[s := st.songs[s].(likes := st.songs[s].likes + 1)],
        artists := st.artists[a := st.artists[a].(likes := st.artists[a].likes + 1)])
  }

  /** Likes the first song with that title on behalf of the first user with
      that mobile; liking a song twice changes nothing. */
  function LikeSong(st: Store, mobile: string, title: string): Step<Result<SongRef>>
    requires Entries(st) && Ownership(st)
  {
    match FirstIndexOf(Mobiles(st.users), mobile)
    case None => Step(st, Err(NotFound))
    case Some(u) =>
      match FirstIndexOf(SongTitles(st.songs), title)
      case None => Step(st, Err(NotFound))
      case Some(s) =>
        if u in st.songLikeMap[s] then Step(st, Ok(s))
        else Step(RecordLike(st, u, s, st.albumArtist[st.songAlbum[s]]), Ok(s))
  }
}
