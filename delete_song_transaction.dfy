/** The undoable "delete song" edit: it snapshots the song at its position before
    anything is removed, and removes or reinserts it through the model. */
module DeleteSong {
  import opened Songs
  import opened Playlists
  import opened Playlister

  class DeleteSongTransaction {
    const model: PlaylisterModel
    const index: nat
    const song: Song

    /** Captures the position and the song found there now, before any removal. */
    constructor (initModel: PlaylisterModel, i: nat)
      requires initModel.currentList != null && i < |initModel.currentList.songs|
      ensures model == initModel && index == i
      ensures song == initModel.currentList.songs[i]
    {
      var snapshot := initModel.GetSong(i);
      model := initModel;
      index := i;
      song := snapshot;
    }

    /** Removes the song at the captured position; the others keep their order. */
    method DoTransaction()
      requires model.currentList != null ==> index < |model.currentList.songs|
      modifies model.currentList
      ensures model.currentList != null ==>
                && model.currentList.name == old(model.currentList.name)
                && model.currentList.songs == Remove(old(model.currentList.songs), index)
    {
      model.DoDeleteSong(index, song.title, song.artist, song.youTubeId, true);
    }

    /** Puts the captured song back at the captured position. */
    method UndoTransaction()
      requires model.currentList != null ==> index <= |model.currentList.songs|
      modifies model.currentList
      ensures model.currentList != null ==>
                && model.currentList.name == old(model.currentList.name)
                && model.currentList.songs == Insert(old(model.currentList.songs), index, song)
    {
      model.DoDeleteSong(index, song.title, song.artist, song.youTubeId, false);
    }
  }

  /** Undo after do restores the original sequence, the captured song back at its index. */
  method UndoAfterDo(t: DeleteSongTransaction)
    requires t.model.currentList != null && t.index < |t.model.currentList.songs|
    requires t.model.currentList.songs[t.index] == t.song
    modifies t.model.currentList
    ensures t.model.currentList.songs == old(t.model.currentList.songs)
  {
    ghost var before := t.model.currentList.songs;
    t.DoTransaction();
    RemoveAt(before, t.index);
    t.UndoTransaction();
    InsertRemove(before, t.index);
  }

  /** Do, undo and do again leave the same sequence as a single do. */
  method RedoAfterUndo(t: DeleteSongTransaction)
    requires t.model.currentList != null && t.index < |t.model.currentList.songs|
    requires t.model.currentList.songs[t.index] == t.song
    modifies t.model.currentList
    ensures t.model.currentList.songs == Remove(old(t.model.currentList.songs), t.index)
  {
    UndoAfterDo(t);
    t.DoTransaction();
  }
}
