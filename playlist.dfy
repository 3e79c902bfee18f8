/** A playlist: an id fixed at creation, a name, and an ordered list of songs
    that the editor changes in place. */
module Playlists {
  import opened Songs

  class Playlist {
    const id: nat
    var name: string
    var songs: seq<Song>

    /** A new playlist carries its id; name and songs are set afterwards. */
    constructor (initId: nat)
      ensures id == initId && name == "" && songs == []
    {
      id := initId;
      name := "";
      songs := [];
    }

    method GetName() returns (n: string)
      ensures n == name
    {
      n := name;
    }

    method SetName(initName: string)
      modifies this`name
      ensures name == initName
    {
      name := initName;
    }

    method GetSongAt(index: nat) returns (song: Song)
      requires index < |songs|
      ensures song == songs[index]
    {
      song := songs[index];
    }

    /** Overwrites one position; all others keep their song. */
    method SetSongAt(index: nat, song: Song)
      requires index < |songs|
      modifies this`songs
      ensures songs == old(songs)[index := song]
    {
      songs := songs[index := song];
    }

    /** Appends a song with exactly the given fields; nothing is defaulted here. */
    method AddSong(initTitle: string, initArtist: string, initYouTubeId: string)
      modifies this`songs
      ensures songs == old(songs) + [Song(initTitle, initArtist, initYouTubeId)]
    {
      songs := songs + [Song("", "", "")];
      songs := songs[|songs| - 1 := songs[|songs| - 1].(title := initTitle)];
      songs := songs[|songs| - 1 := songs[|songs| - 1].(artist := initArtist)];
      songs := songs[|songs| - 1 := songs[|songs| - 1].(youTubeId := initYouTubeId)];
    }

    method SetSongs(initSongs: seq<Song>)
      modifies this`songs
      ensures songs == initSongs
    {
      songs := initSongs;
    }

    /** Splices the song at `oldIndex` out and splices it back in at `newIndex`. */
    method MoveSong(oldIndex: nat, newIndex: nat)
      requires oldIndex < |songs| && newIndex < |songs|
      modifies this`songs
      ensures songs == Moved(old(songs), oldIndex, newIndex)
    {
      var removed := songs[oldIndex];
      songs := Remove(songs, oldIndex);
      songs := Insert(songs, newIndex, removed);
    }
  }
}
