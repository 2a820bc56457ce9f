# SpotifyRepository in Dafny

This project models the in-memory store behind a small music-streaming
service: the Java class `SpotifyRepository`. The store keeps:

- five entity lists: users, songs, playlists, albums and artists;
- seven relation maps:
  - artist → albums;
  - album → songs;
  - playlist → songs;
  - playlist → listeners;
  - creator → latest playlist;
  - user → playlists;
  - song → likers.

Its operations are:

- creating users, artists, albums and songs;
- building a playlist from a song length or from a list of titles;
- subscribing a user to a playlist;
- liking a song, which also credits the artist who owns it;
- asking for the most popular artist and the most popular song.

Every lookup is a linear scan in which the first match wins.

Layout:

- `domain.dfy` (`Domain`): the entities and the outcome types. Each entity is
  identified by its position in the list it was appended to. Lists only grow,
  so position equality is the Java reference equality.
- `catalog.dfy` (`Catalog`): the searches.
  - the first-match lookup (`FirstIndexOf`, and the loop `FindFirst`);
  - the song selections that fill a new playlist;
  - the first-strict-maximum scan behind the popularity queries.
- `tally.dfy` (`Tally`): like totals. It proves that the artists' likes and
  the songs' likes add up to the same number when every song is owned by
  one of the artists and every artist holds the likes of the songs it owns.
- `store_model.dfy` (`StoreModel`): the whole state as a value, `Store`, and
  each operation as a function from the state before to the state after and
  the answer.
  - The state also records which artist each album was created for and
    which album each song was created in. The Java code recovers these only
    by the scan in `likeSong`.
  - It records who created each playlist as well. The Java code never looks
    this up, and its creator → playlist map keeps only a user's latest
    playlist. The invariant needs the creator to say that the first listener
    of a playlist is the user who created it.
  - It also defines the invariant `Valid`. The invariant says:
    - every artist, album, song and playlist has its relation entry, and
      every reference points at an existing entity (`Entries`). A user has
      an entry in the user → playlists map only after creating a playlist;
    - every album is listed under exactly one artist, and every song under
      exactly one album (`Ownership`);
    - a song's likes count its distinct likers, and an artist's likes are the
      likes of its songs (`LikesTally`);
    - a playlist's listeners are distinct and start with its creator
      (`Listeners`).
- `store_properties.dfy` (`StoreProperties`): every operation keeps `Valid`.
- `store_laws.dfy` (`StoreLaws`): what each operation does and answers, stated
  independently of how `StoreModel` computes it. This covers:
  - first-match selection;
  - failure leaving the state unchanged;
  - playlist contents;
  - subscribing twice and liking twice being the same as doing it once;
  - conservation of likes.
- `repository.dfy` (`Repository`): the class `SpotifyRepository` itself.
  - Its fields are the Java maps and lists, updated in place by methods that
    run the Java loops.
  - Each public method that changes the store ensures two things: the new
    fields and the answer are exactly what the matching `StoreModel` function
    gives for the old fields, and `Valid` still holds.
  - Each of those methods hands the update to an `Apply…` method. That method
    runs the Java loops and needs only the parts of the invariant that the
    update itself relies on.
  - The two read-only queries, `MostPopularArtist` and `MostPopularSong`, run
    their accumulator loops directly. Each is proved to answer the matching
    `Catalog` function, `PopularArtistName` or `PopularSongTitle`.

Two quirks of the source are kept as they are:

- `findPlaylist` appends the user to the playlist's listeners first. Only
  then does it look up the user's own playlist list. That list exists only
  for a user who has created a playlist. For any other user the call fails
  with a null dereference (`Err(NullPointer)`), and the user stays among the
  listeners.
- A playlist gets an entry in the playlist → songs map only when at least
  one song is selected.

## Model

| member | source | states |
|---|---|---|
| Repository.SpotifyRepository.constructor | src/main/java/com/driver/SpotifyRepository.java:23-38 | every map and list starts empty, and the store invariant holds |
| Repository.SpotifyRepository.CreateUser | src/main/java/com/driver/SpotifyRepository.java:40-44 | the user is appended, its position is returned, nothing else changes, and the invariant is kept |
| Repository.SpotifyRepository.ApplyCreateUser | src/main/java/com/driver/SpotifyRepository.java:41-43 | the user is appended to `users` and its position returned; the fields become those of `StoreModel.CreateUser` |
| StoreModel.CreateUser | src/main/java/com/driver/SpotifyRepository.java:40-44 | a user is appended and its position returned; its property is `StoreProperties.CreateUserValid` |
| Repository.SpotifyRepository.CreateArtist | src/main/java/com/driver/SpotifyRepository.java:46-51 | an artist with no likes is appended and gets an empty album list; the invariant is kept |
| Repository.SpotifyRepository.ApplyCreateArtist | src/main/java/com/driver/SpotifyRepository.java:47-49 | an artist with no likes is appended and given an empty album list; the fields become those of `StoreModel.CreateArtist`; `createAlbum` also reaches it, at line 62 |
| StoreModel.CreateArtist | src/main/java/com/driver/SpotifyRepository.java:46-51 | an artist with no likes is appended with an empty album list; its property is `StoreProperties.CreateArtistValid`, and `StoreLaws.CreateAlbumForNewArtist` uses it |
| Repository.SpotifyRepository.CreateAlbum | src/main/java/com/driver/SpotifyRepository.java:53-69 | the fields become those of `StoreModel.CreateAlbum` (laws below), and the invariant is kept |
| Repository.SpotifyRepository.ApplyCreateAlbum | src/main/java/com/driver/SpotifyRepository.java:54-67 | the artist scan with an early exit, the artist creation when none matches, and the attachment leave the fields and the answer of `StoreModel.CreateAlbum` |
| StoreModel.CreateAlbum | src/main/java/com/driver/SpotifyRepository.java:53-69 | the album goes to the first artist with that name, or to a new artist when none has it; its properties are the `StoreLaws.CreateAlbum…` lemmas |
| Repository.SpotifyRepository.AttachAlbum | src/main/java/com/driver/SpotifyRepository.java:64-67 | the new album is appended with an empty song list and added to the end of the artist's album list; no other field changes |
| StoreModel.AttachAlbum | src/main/java/com/driver/SpotifyRepository.java:64-67 | the album is appended with an empty song list and added to artist `a`'s albums; its properties are `StoreLaws.AttachAlbumListedOnce` and `StoreProperties.AttachAlbumValid` |
| Repository.SpotifyRepository.CreateSong | src/main/java/com/driver/SpotifyRepository.java:71-87 | the fields and the answer become those of `StoreModel.CreateSong`, including the failure with nothing changed; the invariant is kept |
| Repository.SpotifyRepository.ApplyCreateSong | src/main/java/com/driver/SpotifyRepository.java:72-86 | the album scan with an early exit, then either `NotFound` with no field changed, or the song added; this leaves the fields and the answer of `StoreModel.CreateSong` |
| Repository.SpotifyRepository.AddSong | src/main/java/com/driver/SpotifyRepository.java:82-85 | the song is appended to the catalog and to the album's song list, with an empty likers list; no other field changes |
| StoreModel.AddSong | src/main/java/com/driver/SpotifyRepository.java:82-85 | the song is appended with no likes to the catalog and to album `al`'s songs, with an empty likers list; its properties are `StoreProperties.AddSongOwnership`, `StoreProperties.AddSongTally` and `StoreLaws.CreateSongAppends` |
| Repository.SpotifyRepository.CreatePlaylistOnLength | src/main/java/com/driver/SpotifyRepository.java:89-116 | the fields and the answer become those of `StoreModel.CreatePlaylistOnLength`, and the invariant is kept |
| Repository.SpotifyRepository.CreatePlaylistOnName | src/main/java/com/driver/SpotifyRepository.java:118-147 | the fields and the answer become those of `StoreModel.CreatePlaylistOnName`, and the invariant is kept |
| Repository.SpotifyRepository.ApplyCreatePlaylistOnLength | src/main/java/com/driver/SpotifyRepository.java:90-114 | the user scan, the playlist's opening and the by-length song scan leave the fields and the answer of `StoreModel.CreatePlaylistOnLength` |
| Repository.SpotifyRepository.ApplyCreatePlaylistOnName | src/main/java/com/driver/SpotifyRepository.java:119-146 | the user scan, the playlist's opening and the nested by-title song scan leave the fields and the answer of `StoreModel.CreatePlaylistOnName` |
| StoreModel.AddPlaylist | src/main/java/com/driver/SpotifyRepository.java:100-112 | the part both constructors share once the creator is found; its properties are `StoreLaws.AddPlaylistOutcome` and `StoreProperties.AddPlaylistValid` |
| StoreModel.CreatePlaylistOnLength | src/main/java/com/driver/SpotifyRepository.java:89-116 | the first user with the mobile creates the playlist of the songs of that length, or the call fails with `NotFound`; its properties are `StoreLaws.CreatePlaylistOnLengthOutcome` and `StoreProperties.CreatePlaylistOnLengthValid` |
| StoreModel.CreatePlaylistOnName | src/main/java/com/driver/SpotifyRepository.java:118-147 | the first user with the mobile creates the playlist of the songs with the requested titles, or the call fails with `NotFound`; its properties are `StoreLaws.CreatePlaylistOnNameOutcome` and `StoreProperties.CreatePlaylistOnNameValid` |
| Repository.SpotifyRepository.OpenPlaylist | src/main/java/com/driver/SpotifyRepository.java:100-105 | the playlist is appended; it becomes the creator's latest playlist; it is added to the creator's list, which is created when absent; the creator is its only listener; no other field changes |
| Repository.SpotifyRepository.AddOwnedPlaylist | src/main/java/com/driver/SpotifyRepository.java:103-104 | the user's playlist list is created when absent, and the playlist is appended to it; no other field changes |
| Repository.SpotifyRepository.FindPlaylist | src/main/java/com/driver/SpotifyRepository.java:149-177 | the fields and the answer become those of `StoreModel.FindPlaylist`, including the null-dereference failure; the invariant is kept |
| Repository.SpotifyRepository.Join | src/main/java/com/driver/SpotifyRepository.java:170-175 | the user joins the listeners unless already there; only then is the user's own playlist list extended, which fails when the user has none |
| Repository.SpotifyRepository.ApplyFindPlaylist | src/main/java/com/driver/SpotifyRepository.java:150-176 | the user scan and the playlist scan, each failing with `NotFound` and no field changed, then the join; this leaves the fields and the answer of `StoreModel.FindPlaylist` |
| StoreModel.Join | src/main/java/com/driver/SpotifyRepository.java:170-175 | the user joins unless already listening, and the null-dereference failure happens after the listener is appended; its properties are `StoreLaws.JoinOutcome` and `StoreLaws.JoinAgain` |
| StoreModel.Subscribe | src/main/java/com/driver/SpotifyRepository.java:172-173 | user `u` is appended to playlist `p`'s listeners; its property is `StoreProperties.SubscribeValid` |
| StoreModel.FindPlaylist | src/main/java/com/driver/SpotifyRepository.java:149-177 | the first user with the mobile joins the first playlist with the title; its properties are `StoreLaws.FindPlaylistOutcome`, `StoreLaws.FindPlaylistIdempotent` and `StoreProperties.FindPlaylistValid` |
| Repository.SpotifyRepository.LikeSong | src/main/java/com/driver/SpotifyRepository.java:179-215 | the fields and the answer become those of `StoreModel.LikeSong`, and the invariant is kept |
| Repository.SpotifyRepository.RecordLike | src/main/java/com/driver/SpotifyRepository.java:200-213 | a first like adds the user to the likers, and one like to the song and to the artist that owns the song |
| Repository.SpotifyRepository.ApplyLikeSong | src/main/java/com/driver/SpotifyRepository.java:180-214 | the user scan and the song scan, each failing with `NotFound` and no field changed, then the like unless the user already likes the song; this leaves the fields and the answer of `StoreModel.LikeSong` |
| Repository.SpotifyRepository.StoreLike | src/main/java/com/driver/SpotifyRepository.java:201-203 | the user is appended to the song's likers, the song gets one more like, and the artists take the counts the owner scan produced; no other field changes |
| StoreModel.RecordLike | src/main/java/com/driver/SpotifyRepository.java:201-208 | a first like: the user joins the likers, and the song and the owning artist get one like each; its properties are `StoreLaws.RecordLikeCredits` and `StoreProperties.RecordLikeTally` |
| StoreModel.LikeSong | src/main/java/com/driver/SpotifyRepository.java:179-215 | the first user with the mobile likes the first song with the title, at most once; its properties are `StoreLaws.LikeSongNotFound`, `StoreLaws.LikeSongCounts`, `StoreLaws.LikeSongIdempotent` and `StoreProperties.LikeSongValid` |
| Repository.SpotifyRepository.MostPopularArtist | src/main/java/com/driver/SpotifyRepository.java:217-227 | the accumulator loop answers `PopularArtistName`: the first artist with the strictly largest positive like count, or nothing |
| Repository.SpotifyRepository.MostPopularSong | src/main/java/com/driver/SpotifyRepository.java:229-239 | the accumulator loop answers `PopularSongTitle`: the first song with the strictly largest positive like count, or nothing |
| Repository.AddMember | src/main/java/com/driver/SpotifyRepository.java:109-110 | the playlist's song list is created when absent, and the song is appended to it |
| Repository.CollectByLength | src/main/java/com/driver/SpotifyRepository.java:107-112 | the scan leaves the playlist with exactly the songs of `SongsOfLength`, and with no entry when there are none |
| Repository.CollectByTitles | src/main/java/com/driver/SpotifyRepository.java:137-144 | the nested scan leaves the playlist with exactly the songs of `SongsForTitles`, and with no entry when there are none |
| Repository.CollectTitled | src/main/java/com/driver/SpotifyRepository.java:138-143 | the inner scan for one title appends every song with that title, in catalog order, after the songs chosen earlier |
| Repository.CreditOwner | src/main/java/com/driver/SpotifyRepository.java:204-212 | the scan over every artist's albums adds one like to the owner of the song, and to no other artist |
| Catalog.FindFirst | src/main/java/com/driver/SpotifyRepository.java:55-60 | the loop with an early exit answers `FirstIndexOf` |
| Catalog.FirstIndexOf | src/main/java/com/driver/SpotifyRepository.java:55-60 | the answer is a position holding the key, with no earlier position holding it; there is no answer exactly when no position holds the key |
| Catalog.SongsOfLengthMembers | src/main/java/com/driver/SpotifyRepository.java:107-112 | the by-length selection holds exactly the catalog songs of that length, each once, in catalog order |
| Catalog.SongsOfLengthEmpty | src/main/java/com/driver/SpotifyRepository.java:107-112 | the by-length selection is empty exactly when no song has that length |
| Catalog.SongsForTitlesMembers | src/main/java/com/driver/SpotifyRepository.java:137-144 | a song is in the by-name selection exactly when its title was requested |
| Catalog.SongsForTitlesEmpty | src/main/java/com/driver/SpotifyRepository.java:137-144 | the by-name selection is empty exactly when no song has a requested title |
| Catalog.SongsForTitlesCount | src/main/java/com/driver/SpotifyRepository.java:137-144 | each song occurs in the by-name selection once for every time its title is requested, so a title requested twice gives duplicates |
| Catalog.SongsForTitlesAppend | src/main/java/com/driver/SpotifyRepository.java:137-144 | requesting titles `a` and then `b` selects what `a` selects, followed by what `b` selects |
| Catalog.SongsTitledCount | src/main/java/com/driver/SpotifyRepository.java:138-143 | one title's scan lists every song with that title exactly once, and nothing else |
| Catalog.SongsTitledOrdered | src/main/java/com/driver/SpotifyRepository.java:138-143 | one title's scan lists its songs in catalog order: the positions strictly increase |
| Catalog.FirstStrictMax | src/main/java/com/driver/SpotifyRepository.java:218-225 | the scan, starting from a best of 0, answers the first position of the strictly largest positive count; it answers nothing exactly when no count is positive |
| Catalog.PopularArtistName | src/main/java/com/driver/SpotifyRepository.java:217-227 | it answers nothing exactly when no artist has a like; otherwise it answers the name at the first strict maximum |
| Catalog.PopularSongTitle | src/main/java/com/driver/SpotifyRepository.java:229-239 | it answers nothing exactly when no song has a like; otherwise it answers the title at the first strict maximum |
| StoreModel.CreateSong | src/main/java/com/driver/SpotifyRepository.java:71-87 | it fails exactly when no album has the title, and then with `NotFound` and nothing changed |
| StoreLaws.FirstIndexOfIsFirstMatch | src/main/java/com/driver/SpotifyRepository.java:55-60 | a first match is what the lookup finds |
| StoreLaws.AttachAlbumListedOnce | src/main/java/com/driver/SpotifyRepository.java:64-67 | the new album has no songs and is listed under the chosen artist and no other |
| StoreLaws.CreateAlbumForKnownArtist | src/main/java/com/driver/SpotifyRepository.java:55-60 | with a matching name, the album goes to the first artist so named, and no artist is created |
| StoreLaws.CreateAlbumForNewArtist | src/main/java/com/driver/SpotifyRepository.java:61-63 | with no matching name, a new artist with that name and no likes is appended and receives the album |
| StoreLaws.CreateAlbumAttaches | src/main/java/com/driver/SpotifyRepository.java:53-69 | the album is appended with no songs; it is listed under exactly one artist, the first one with that name; an artist is created exactly when none had the name |
| StoreLaws.CreateSongAppends | src/main/java/com/driver/SpotifyRepository.java:71-87 | on success the song is appended with no likes and no likers, and it is listed under the first album with that title and no other |
| StoreLaws.CreatorIsFirstUser | src/main/java/com/driver/SpotifyRepository.java:90-96 | the user lookup finds the first user with the mobile, and finds nothing exactly when no user has it |
| StoreLaws.AddPlaylistOutcome | src/main/java/com/driver/SpotifyRepository.java:100-112 | the playlist is appended; the creator is its only listener and is mapped to it; it is added to the creator's earlier playlists; it has a song entry exactly when songs were selected; other playlists' songs are unchanged |
| StoreLaws.CreatePlaylistOnLengthOutcome | src/main/java/com/driver/SpotifyRepository.java:89-116 | it fails with `NotFound` and no change exactly when no user has the mobile; otherwise the first such user creates the playlist, which holds exactly the songs of that length, in catalog order |
| StoreLaws.CreatePlaylistOnNameOutcome | src/main/java/com/driver/SpotifyRepository.java:118-147 | it fails with `NotFound` and no change exactly when no user has the mobile; otherwise the first such user creates the playlist, which holds each song once per request of its title |
| StoreLaws.PlaylistIsFirstTitled | src/main/java/com/driver/SpotifyRepository.java:160-169 | the playlist lookup finds the first playlist with the title, and finds nothing exactly when none has it |
| StoreLaws.JoinOutcome | src/main/java/com/driver/SpotifyRepository.java:170-175 | the join has the effect `Joined` states. Afterwards the user is a listener. A user already listening leaves the store unchanged and gets `Ok`. Any other user is appended to the listeners, and the playlist is appended to the user's own playlists when that list exists. The call fails, with a null dereference, exactly when the user was not listening and never created a playlist |
| StoreLaws.JoinAgain | src/main/java/com/driver/SpotifyRepository.java:170-175 | joining a second time changes nothing and succeeds |
| StoreLaws.FindPlaylistOutcome | src/main/java/com/driver/SpotifyRepository.java:149-177 | it fails with `NotFound` and no change exactly when the user or the title is unknown. Otherwise the first user with the mobile joins the first playlist with the title, with the effect `Joined` states |
| StoreLaws.FindPlaylistIdempotent | src/main/java/com/driver/SpotifyRepository.java:149-177 | a second identical call changes nothing; it repeats a successful answer, and it succeeds after a null-dereference failure |
| StoreLaws.ScanFindsOwner | src/main/java/com/driver/SpotifyRepository.java:204-212 | an artist's albums list the song exactly when the artist owns it |
| StoreLaws.LikeSongNotFound | src/main/java/com/driver/SpotifyRepository.java:179-199 | it fails with `NotFound` and no change exactly when the user or the song title is unknown; otherwise it answers the first song with the title |
| StoreLaws.LikeSongCounts | src/main/java/com/driver/SpotifyRepository.java:200-213 | a first like adds the user to the end of the song's likers, and one like to the song and to each artist whose albums list it; every other part of the store is unchanged, artist names included; a repeated like changes nothing |
| StoreLaws.RecordLikeCredits | src/main/java/com/driver/SpotifyRepository.java:200-212 | recording a like credits exactly the artists whose albums list the song; no other song and no artist name changes |
| StoreLaws.LikeSongIdempotent | src/main/java/com/driver/SpotifyRepository.java:179-215 | liking twice is liking once: the second call changes nothing and gives the same answer |
| StoreLaws.StoreLikesConserved | src/main/java/com/driver/SpotifyRepository.java:200-212 | in every valid state, the total of the artists' likes equals the total of the songs' likes |
| Tally.LikesConserved | src/main/java/com/driver/SpotifyRepository.java:203-208 | when every song is owned by one of the artists and each artist's likes are those of the songs it owns, the artist total equals the song total |
| StoreProperties.EmptyValid | src/main/java/com/driver/SpotifyRepository.java:23-38 | the empty store satisfies the invariant |
| StoreProperties.CreateUserValid | src/main/java/com/driver/SpotifyRepository.java:40-44 | creating a user keeps the invariant |
| StoreProperties.CreateArtistValid | src/main/java/com/driver/SpotifyRepository.java:46-51 | creating an artist keeps the invariant |
| StoreProperties.AttachAlbumOwnership | src/main/java/com/driver/SpotifyRepository.java:64-67 | attaching an album keeps every album under exactly one artist and every song under exactly one album, and changes no song's owner |
| StoreProperties.CreateAlbumValid | src/main/java/com/driver/SpotifyRepository.java:53-69 | creating an album keeps the invariant |
| StoreProperties.AddSongOwnership | src/main/java/com/driver/SpotifyRepository.java:82-85 | the new song is owned by its album's artist, and no other song's owner changes |
| StoreProperties.AddSongTally | src/main/java/com/driver/SpotifyRepository.java:82-85 | a new song with no likes keeps every artist's likes equal to the likes of the songs it owns |
| StoreProperties.CreateSongValid | src/main/java/com/driver/SpotifyRepository.java:71-87 | creating a song keeps the invariant |
| StoreProperties.AddPlaylistValid | src/main/java/com/driver/SpotifyRepository.java:100-112 | opening a playlist for an existing user, with songs from the catalog, keeps the invariant |
| StoreProperties.CreatePlaylistOnLengthValid | src/main/java/com/driver/SpotifyRepository.java:89-116 | creating a playlist by length keeps the invariant |
| StoreProperties.CreatePlaylistOnNameValid | src/main/java/com/driver/SpotifyRepository.java:118-147 | creating a playlist by titles keeps the invariant |
| StoreProperties.SubscribeValid | src/main/java/com/driver/SpotifyRepository.java:170-173 | adding a user who is not yet listening keeps the invariant, with every playlist's listeners distinct; so does the extension of the user's own playlist list that follows |
| StoreProperties.FindPlaylistValid | src/main/java/com/driver/SpotifyRepository.java:149-177 | subscribing keeps the invariant, including after the null-dereference failure, so a user is never listed twice as a listener |
| StoreProperties.RecordLikeTally | src/main/java/com/driver/SpotifyRepository.java:200-212 | a first like keeps likers distinct and counted, and keeps artist likes equal to their songs' likes |
| StoreProperties.LikeSongValid | src/main/java/com/driver/SpotifyRepository.java:179-215 | liking keeps the invariant |

## Left out

- The Spring `@Repository` annotation and the service and controller layers that call the class: framework wiring, with no logic of its own.
- The entity classes `User`, `Artist`, `Album`, `Song` and `Playlist` are not part of this model.
  - Their getters and setters are modelled as datatype fields; a like is recorded by replacing the list element.
  - Their identity is the position in the creation list, which is reference identity because no entity is appended twice.
  - Likes start at 0.
- The exception messages: every checked failure is the single error `NotFound`.
- The failure of `findPlaylist` at line 174 is modelled as the result `Err(NullPointer)`, with the state the Java code leaves behind. Unwinding to the caller is not modelled.
- Repository.SpotifyRepository.LikeSong: like counts are unbounded integers, so the model does not wrap a Java `int` at 2^31 - 1 likes. A song's count reaches that only with 2^31 - 1 distinct users. An artist's count adds up the likes of all its songs, so it reaches that after 2^31 - 1 (user, song) likes across those songs, for example about 46,341 users each liking 46,341 of its songs. A wrapped, negative count would then never be chosen by `mostPopularArtist`, and the model does not capture that.
- The unspecified iteration order of the artist → albums `HashMap` in `likeSong` (line 204): artists are visited in creation order. Exactly one artist lists any given song (`StoreLaws.ScanFindsOwner`), so the result does not depend on the order.
- Hashing of map keys: the maps are Dafny `map`s keyed by entity position.
- `String.equals`: names, titles and mobiles are compared as character sequences.
- `null` arguments (a `null` title list or mobile): the model's strings and lists are never null.
- Entities are returned as positions. Aliasing of returned objects is not modelled, that is, a caller changing an entity through its own reference.
- Thread safety: the class has no locking, and the model is sequential.
