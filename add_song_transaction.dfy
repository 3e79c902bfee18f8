/** The undoable "add song" edit: it captures the song's fields once and
    appends or drops that song through the model. */
module AddSong {
  import opened Songs
  import opened Playlists
  import opened Playlister

  class AddSongTransaction {
    const model: PlaylisterModel
    const title: string
    const artist: string
    const youTubeId: string

    /** Captures the fields as given; they are constants, so neither do nor undo changes them. */
    constructor (initModel: PlaylisterModel, initTitle: string, initArtist: string, initYouTubeId: string)
      ensures model == initModel
      ensures title == initTitle && artist == initArtist && youTubeId == initYouTubeId
    {
      model := initModel;
      title := initTitle;
      artist := initArtist;
      youTubeId := initYouTubeId;
    }

    /** Appends the captured song, unnormalized, to the current list. */
    method DoTransaction()
      modifies model.currentList
      ensures model.currentList != null ==>
                && model.currentList.name == old(model.currentList.name)
                && model.currentList.songs == old(model.currentList.songs) + [Song(title, artist, youTubeId)]
    {
      model.DoSong(title, artist, youTubeId, true);
    }

    /** Drops the last song of the current list (an empty list stays empty). */
    method UndoTransaction()
      modifies model.currentList
      ensures model.currentList != null ==>
                && model.currentList.name == old(model.currentList.name)
                && model.currentList.songs == DropLast(old(model.currentList.songs))
    {
      model.DoSong(title, artist, youTubeId, false);
    }
  }

  /** Undo right after do restores the song sequence exactly. */
  method UndoAfterDo(t: AddSongTransaction)
    modifies t.model.currentList
    ensures t.model.currentList != null ==>
              t.model.currentList.songs == old(t.model.currentList.songs)
  {
    t.DoTransaction();
    t.UndoTransaction();
    if t.model.currentList != null {
      DropLastAppend(old(t.model.currentList.songs), Song(t.title, t.artist, t.youTubeId));
    }
  }

  /** Do, undo and do again leave the same sequence as a single do. */
  method RedoAfterUndo(t: AddSongTransaction)
    modifies t.model.currentList
    ensures t.model.currentList != null ==>
              t.model.currentList.songs == old(t.model.currentList.songs) + [Song(t.title, t.artist, t.youTubeId)]
  {
    UndoAfterDo(t);
    t.DoTransaction();
  }

  /** Without a current list, do and undo change no playlist. */
  method NoCurrentListUnchanged(t: AddSongTransaction)
    requires t.model.currentList == null
    ensures forall p :: p in t.model.playlists ==> p.songs == old(p.songs) && p.name == old(p.name)
  {
    t.DoTransaction();
    t.UndoTransaction();
  }
}
