/** The undoable "edit song" edit: it captures the song's old and new fields and
    its position, and writes one or the other through the model. */
module EditSong {
  import opened Songs
  import opened Playlists
  import opened Playlister

  class EditSongTransaction {
    const model: PlaylisterModel
    const oldTitle: string
    const oldArtist: string
    const oldYouTubeId: string
    const newTitle: string
    const newArtist: string
    const newYouTubeId: string
    const index: nat

    /** Captures both triples and the position; they are constants from here on. */
    constructor (initModel: PlaylisterModel, oldT: string, oldA: string, oldY: string,
                 newT: string, newA: string, newY: string, i: nat)
      ensures model == initModel && index == i
      ensures oldTitle == oldT && oldArtist == oldA && oldYouTubeId == oldY
      ensures newTitle == newT && newArtist == newA && newYouTubeId == newY
    {
      model := initModel;
      oldTitle, oldArtist, oldYouTubeId := oldT, oldA, oldY;
      newTitle, newArtist, newYouTubeId := newT, newA, newY;
      index := i;
    }

    /** Sets the song at the captured position to the normalized new fields. */
    method DoTransaction()
      requires model.currentList != null && index < |model.currentList.songs|
      modifies model.currentList
      ensures model.currentList.name == old(model.currentList.name)
      ensures model.currentList.songs ==
                EditAt(old(model.currentList.songs), index, newTitle, newArtist, newYouTubeId)
    {
      model.EditSong(newTitle, newArtist, newYouTubeId, index);
    }

    /** Sets the song at the captured position to the normalized old fields. */
    method UndoTransaction()
      requires model.currentList != null && index < |model.currentList.songs|
      modifies model.currentList
      ensures model.currentList.name == old(model.currentList.name)
      ensures model.currentList.songs ==
                EditAt(old(model.currentList.songs), index, oldTitle, oldArtist, oldYouTubeId)
    {
      model.EditSong(oldTitle, oldArtist, oldYouTubeId, index);
    }
  }

  /** Undo after do restores the sequence when the old triple is the song's
      previous fields and none of them is empty. */
  method UndoAfterDo(t: EditSongTransaction)
    requires t.model.currentList != null && t.index < |t.model.currentList.songs|
    requires t.model.currentList.songs[t.index] == Song(t.oldTitle, t.oldArtist, t.oldYouTubeId)
    requires t.oldTitle != "" && t.oldArtist != "" && t.oldYouTubeId != ""
    modifies t.model.currentList
    ensures t.model.currentList.songs == old(t.model.currentList.songs)
  {
    ghost var before := t.model.currentList.songs;
    t.DoTransaction();
    t.UndoTransaction();
    EditAtUndo(before, t.index, t.newTitle, t.newArtist, t.newYouTubeId);
  }

  /** Doing the edit twice leaves what doing it once leaves. */
  method DoTwice(t: EditSongTransaction)
    requires t.model.currentList != null && t.index < |t.model.currentList.songs|
    modifies t.model.currentList
    ensures t.model.currentList.songs ==
              EditAt(old(t.model.currentList.songs), t.index, t.newTitle, t.newArtist, t.newYouTubeId)
  {
    ghost var before := t.model.currentList.songs;
    t.DoTransaction();
    t.DoTransaction();
    EditAtIdempotent(before, t.index, t.newTitle, t.newArtist, t.newYouTubeId);
  }

  /** Undo followed by do leaves what a single do leaves. */
  method DoAfterUndo(t: EditSongTransaction)
    requires t.model.currentList != null && t.index < |t.model.currentList.songs|
    modifies t.model.currentList
    ensures t.model.currentList.songs ==
              EditAt(old(t.model.currentList.songs), t.index, t.newTitle, t.newArtist, t.newYouTubeId)
  {
    ghost var before := t.model.currentList.songs;
    t.UndoTransaction();
    t.DoTransaction();
    EditAtOverwrites(before, t.index, t.oldTitle, t.oldArtist, t.oldYouTubeId,
                     t.newTitle, t.newArtist, t.newYouTubeId);
  }
}
