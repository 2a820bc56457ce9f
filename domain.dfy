/** Entities of the streaming catalog and the outcome types of its operations.

    Every entity is identified by its position in the list it was appended to
    when it was created (lists only grow, and each entity is appended exactly
    once), so two references are equal exactly when their indices are.  */
module Domain {

  datatype Option<T> = None | Some(value: T)

  /** The repository raises one checked kind of failure, a lookup that finds
      nothing; `NullPointer` is the unchecked failure of `findPlaylist` for a
      user who never created a playlist. */
  datatype Error = NotFound | NullPointer

  datatype Result<T> = Ok(value: T) | Err(error: Error)

  type UserRef = nat
  type ArtistRef = nat
  type AlbumRef = nat
  type SongRef = nat
  type PlaylistRef = nat

  datatype User = User(name: string, mobile: string)
  datatype Artist = Artist(name: string, likes: int)
  datatype Album = Album(title: string)
  datatype Song = Song(title: string, length: int, likes: int)
  datatype Playlist = Playlist(title: string)

  predicate NoDup<T(==)>(s: seq<T>) {
    forall i, j :: 0 <= i < j < |s| ==> s[i] != s[j]
  }

  // The lookup keys of each entity list, position by position.

  function Mobiles(users: seq<User>): seq<string> {
    seq(|users|, i requires 0 <= i < |users| => users[i].mobile)
  }

  function ArtistNames(artists: seq<Artist>): seq<string> {
    seq(|artists|, i requires 0 <= i < |artists| => artists[i].name)
  }

  function AlbumTitles(albums: seq<Album>): seq<string> {
    seq(|albums|, i requires 0 <= i < |albums| => albums[i].title)
  }

  function SongTitles(songs: seq<Song>): seq<string> {
    seq(|songs|, i requires 0 <= i < |songs| => songs[i].title)
  }

  function PlaylistTitles(playlists: seq<Playlist>): seq<string> {
    seq(|playlists|, i requires 0 <= i < |playlists| => playlists[i].title)
  }

  function ArtistLikes(artists: seq<Artist>): seq<int> {
    seq(|artists|, i requires 0 <= i < |artists| => artists[i].likes)
  }

  function SongLikes(songs: seq<Song>): seq<int> {
    seq(|songs|, i requires 0 <= i < |songs| => songs[i].likes)
  }
}
