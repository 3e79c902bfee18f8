# Playlister editing core in Dafny

This project models the in-memory core of Playlister, a browser playlist editor.
The model has three parts:

- **`PlaylisterModel`**: the list of playlists, the currently loaded list, the id counter and the dialog flags.
  It looks lists up, creates, sorts, renames, loads, unloads and deletes them.
  It also has the primitive song mutators: append, drop the last song, remove at an index, move, and edit with defaults.
- **`Playlist`**: an id fixed at creation, a name, and a song sequence changed in place.
- **Three undoable edits**: add song, edit song and delete song.
  Each captures its data at construction and acts through the model's mutators.

The model is imperative, like the JavaScript program.

- `Playlist` and `PlaylisterModel` are classes. Their methods carry `modifies` frames and state the whole new state.
- The transactions are classes with `const` fields, so their captured data cannot change after construction.
- Every mutator is specified by a pure function on song sequences in module `Songs` (`Remove`, `Insert`, `Moved`, `DropLast`, `EditAt`).
- The laws the editor relies on are proved about those functions:
  - undo after do restores the sequence;
  - re-doing gives the same result;
  - a move is self-inverse, and moving an element onto itself is a no-op;
  - the filter-based removal in `moveSong` equals the splice-based removal in `Playlist.moveSong`;
  - an edit is idempotent.
- Small client methods in each transaction module (`UndoAfterDo`, `RedoAfterUndo`, …) show that the classes' contracts compose into those laws.

`PlaylisterModel.Valid()` is the model's invariant:
- playlist ids are pairwise distinct;
- every id is below `nextListId`;
- the current list, when there is one, is one of the playlists.

Every list operation preserves it.

The undo history object (`tps`) is represented only by a ghost counter, `cleared`, which counts the calls that clear the history.

Modules, one per source file: `Songs` (songs.dfy), `ListNames` (list_names.dfy), `Playlists` (playlist.dfy), `Playlister` (playlister_model.dfy), `AddSong`, `EditSong` and `DeleteSong` (the three transaction files).

Behaviours of the JavaScript program that the model reproduces as written:
- `addSong` and `addNewSong` append the fields exactly as given. Only `editSong` substitutes defaults for empty fields.
- Undoing a delete (`doDeleteSong` with `isDo` false) appends the song and moves it from the end to index i. `Songs.MovedFromEnd` proves this equals inserting it at i.
- No index is ever checked, so valid indices are preconditions here.
- In `deleteList`, the code compares the lookup result with the current list using `==`. A missing id gives `undefined`, and `undefined == null` is true in JavaScript. So deleting an unknown id while no list is loaded still clears the history. `DeleteList` models this. It is harmless, because the history is already empty whenever no list is loaded.

## Model

| member | source | states |
|---|---|---|
| Songs.Normalize | public_html/src/playlister/PlaylisterModel.js:273-287 | each empty field becomes "Untitled", "Unknown" or "dQw4w9WgXcQ"; each non-empty field is copied; no field of the result is empty |
| Songs.NormalizeIdempotent | public_html/src/playlister/PlaylisterModel.js:271-289 | normalizing a normalized song changes nothing |
| Songs.NormalizeFilled | public_html/src/playlister/PlaylisterModel.js:271-289 | a song with no empty field is its own normal form |
| Songs.RemoveAt | public_html/src/playlister/PlaylisterModel.js:308-313 | removing position i shortens the sequence by one, keeps every other element in order, and removes exactly one occurrence of s[i] |
| Songs.InsertAt | public_html/src/playlister/Playlist.js:42 | inserting x at i puts x at i, keeps the prefix, shifts the suffix by one, and adds exactly one x |
| Songs.InsertRemove | public_html/src/playlister/transactions/DeleteSong_Transaction.js:11-17 | re-inserting the removed element at its position restores the sequence |
| Songs.RemoveInsert | public_html/src/playlister/Playlist.js:42 | removing the element just inserted restores the sequence |
| Songs.DropIndexNone | public_html/src/playlister/PlaylisterModel.js:319 | filtering out a negative index keeps the whole sequence |
| Songs.DropIndexIsRemove | public_html/src/playlister/PlaylisterModel.js:317-321 | the model's filter by index equals the playlist's splice at that index, so both moveSong versions give the same sequence |
| Songs.MovedShape | public_html/src/playlister/Playlist.js:41-43 | a move keeps length and multiset, puts the old s[from] at `to`, and keeps the other songs in their relative order |
| Songs.MovedSelf | public_html/src/playlister/Playlist.js:41-43 | moving an element onto its own index is a no-op |
| Songs.MovedInverse | public_html/src/playlister/Playlist.js:41-43 | moving from a to b and then from b to a restores the sequence |
| Songs.MovedFromEnd | public_html/src/playlister/PlaylisterModel.js:342-345 | appending a song and moving it from the end to i equals inserting it at i |
| Songs.DropLastAppend | public_html/src/playlister/transactions/AddSong_Transaction.js:12-18 | dropping the last song undoes an append |
| Songs.DropLastShape | public_html/src/playlister/PlaylisterModel.js:332 | slicing off the last song removes exactly that song, and leaves an empty list empty |
| Songs.EditAtShape | public_html/src/playlister/PlaylisterModel.js:271-289 | an edit keeps the length, changes index i only, and writes the normalized fields there |
| Songs.EditAtIdempotent | public_html/src/playlister/PlaylisterModel.js:271-289 | applying the same edit twice equals applying it once |
| Songs.EditAtUndo | public_html/src/playlister/transactions/EditSong_Transaction.js:16-22 | editing back to the song's previous non-empty fields restores the sequence |
| Songs.EditAtOverwrites | public_html/src/playlister/transactions/EditSong_Transaction.js:16-22 | the last edit of a position decides its song, so undo followed by do equals do |
| ListNames.LessIrreflexive | public_html/src/playlister/PlaylisterModel.js:162 | no name sorts before itself |
| ListNames.LessAsymmetric | public_html/src/playlister/PlaylisterModel.js:162 | two names never sort before each other |
| ListNames.LessTotal | public_html/src/playlister/PlaylisterModel.js:162-170 | two different names are always ordered one way or the other |
| ListNames.LessTransitive | public_html/src/playlister/PlaylisterModel.js:162 | the string order is transitive |
| ListNames.NotAfterTotal | public_html/src/playlister/PlaylisterModel.js:161-171 | the sort order relates any two names |
| ListNames.NotAfterTransitive | public_html/src/playlister/PlaylisterModel.js:161-171 | the sort order is transitive |
| ListNames.Compare | public_html/src/playlister/PlaylisterModel.js:161-171 | the comparator returns -1 exactly when a < b, 0 exactly when the names are equal, and 1 exactly when b < a |
| ListNames.CompareAntisymmetric | public_html/src/playlister/PlaylisterModel.js:161-171 | swapping the operands negates the comparator |
| Playlists.Playlist.constructor | public_html/src/playlister/Playlist.js:10-12 | the new playlist carries the given id, an empty name and no songs |
| Playlists.Playlist.GetName | public_html/src/playlister/Playlist.js:14-16 | returns the name |
| Playlists.Playlist.SetName | public_html/src/playlister/Playlist.js:18-20 | the name becomes the argument; the songs are unchanged |
| Playlists.Playlist.GetSongAt | public_html/src/playlister/Playlist.js:22-24 | returns the song at the index |
| Playlists.Playlist.SetSongAt | public_html/src/playlister/Playlist.js:26-28 | the index gets the new song and every other index keeps its song |
| Playlists.Playlist.AddSong | public_html/src/playlister/Playlist.js:30-35 | the length grows by one, the last song has exactly the given fields, and earlier songs are unchanged |
| Playlists.Playlist.SetSongs | public_html/src/playlister/Playlist.js:37-39 | the songs become the argument |
| Playlists.Playlist.MoveSong | public_html/src/playlister/Playlist.js:41-43 | the songs become `Moved(old songs, oldIndex, newIndex)` |
| Playlister.IndexOfId | public_html/src/playlister/PlaylisterModel.js:98-106 | -1 exactly when no playlist has the id; otherwise the smallest index whose id matches |
| Playlister.WithoutId | public_html/src/playlister/PlaylisterModel.js:293 | keeps exactly the playlists whose id differs; keeps everything when the id is absent |
| Playlister.WithoutIdDistinct | public_html/src/playlister/PlaylisterModel.js:291-293 | filtering keeps ids distinct; with distinct ids it removes exactly one list when the id is present |
| Playlister.SwapKeeps | public_html/src/playlister/PlaylisterModel.js:161 | exchanging two neighbours during the sort keeps the multiset and distinct ids |
| Playlister.InsertIntoPrefix | public_html/src/playlister/PlaylisterModel.js:161-171 | one insertion pass permutes the lists, keeps ids distinct, and extends the sorted prefix by one |
| Playlister.PlaylisterModel.constructor | public_html/src/playlister/PlaylisterModel.js:29-45 | no lists, no current list, id counter 0, both dialogs closed, history never cleared |
| Playlister.PlaylisterModel.GetList | public_html/src/playlister/PlaylisterModel.js:94-96 | returns the list at the index |
| Playlister.PlaylisterModel.GetListIndex | public_html/src/playlister/PlaylisterModel.js:98-106 | the loop returns the first index with the id, or -1 |
| Playlister.PlaylisterModel.GetPlaylistSize | public_html/src/playlister/PlaylisterModel.js:108-110 | returns the current list's length |
| Playlister.PlaylisterModel.GetSong | public_html/src/playlister/PlaylisterModel.js:112-114 | returns the current list's song at the index |
| Playlister.PlaylisterModel.HasCurrentList | public_html/src/playlister/PlaylisterModel.js:175-177 | true exactly when a list is loaded |
| Playlister.PlaylisterModel.ToggleConfirmDialogOpen | public_html/src/playlister/PlaylisterModel.js:124-128 | flips the flag and returns its new value |
| Playlister.PlaylisterModel.ToggleEditDialogOpen | public_html/src/playlister/PlaylisterModel.js:130-134 | flips the flag and returns its new value |
| Playlister.PlaylisterModel.SortLists | public_html/src/playlister/PlaylisterModel.js:160-173 | the lists become a permutation of the old ones, in non-decreasing order of upper-cased name; the invariant is kept |
| Playlister.PlaylisterModel.AddNewList | public_html/src/playlister/PlaylisterModel.js:138-148 | the new list gets the old `nextListId`, the counter grows by exactly one, exactly one fresh list is added, ids stay distinct, and the lists end up sorted |
| Playlister.PlaylisterModel.LoadList | public_html/src/playlister/PlaylisterModel.js:186-210 | reloading the current id changes nothing and keeps history; otherwise the current list becomes the first list with that id (or stays if none), and history is cleared |
| Playlister.PlaylisterModel.UnselectCurrentList | public_html/src/playlister/PlaylisterModel.js:244-252 | no list is current afterwards; history is cleared only if one was |
| Playlister.PlaylisterModel.RenameCurrentList | public_html/src/playlister/PlaylisterModel.js:254-269 | with a list loaded and the id present, that list is renamed ("" becomes "Untitled"), other names and all songs are kept, and the lists are re-sorted; with no list loaded nothing changes; a missing id is reported |
| Playlister.PlaylisterModel.DeleteList | public_html/src/playlister/PlaylisterModel.js:291-306 | removes every list with the id and keeps the others in order; if the current list is removed, `currentList` becomes null and history is cleared; otherwise the current list is kept |
| Playlister.PlaylisterModel.AddNewSong | public_html/src/playlister/PlaylisterModel.js:152-158 | appends one unnormalized song to the current list; with no current list nothing changes |
| Playlister.PlaylisterModel.EditSong | public_html/src/playlister/PlaylisterModel.js:271-289 | the current list becomes `EditAt(old, index, …)`: only index i changes |
| Playlister.PlaylisterModel.DeleteSong | public_html/src/playlister/PlaylisterModel.js:308-313 | the current list loses position i and keeps the rest in order |
| Playlister.PlaylisterModel.MoveSong | public_html/src/playlister/PlaylisterModel.js:317-325 | with a current list the songs become `Moved(old, from, to)`; with none nothing changes |
| Playlister.PlaylisterModel.DoSong | public_html/src/playlister/PlaylisterModel.js:327-336 | isDo appends one song with the fields; otherwise exactly the last song is removed and an empty list stays empty; with no list nothing changes |
| Playlister.PlaylisterModel.DoDeleteSong | public_html/src/playlister/PlaylisterModel.js:338-347 | isDo removes position i; otherwise the song is appended and moved, so it ends up at i with every other song in its original order |
| AddSong.AddSongTransaction.constructor | public_html/src/playlister/transactions/AddSong_Transaction.js:4-10 | captures the model and the three fields as given |
| AddSong.AddSongTransaction.DoTransaction | public_html/src/playlister/transactions/AddSong_Transaction.js:12-14 | appends one song with the captured, unnormalized fields to the current list |
| AddSong.AddSongTransaction.UndoTransaction | public_html/src/playlister/transactions/AddSong_Transaction.js:16-18 | drops the current list's last song |
| AddSong.UndoAfterDo | public_html/src/playlister/transactions/AddSong_Transaction.js:12-18 | undo right after do restores the song sequence |
| AddSong.RedoAfterUndo | public_html/src/playlister/transactions/AddSong_Transaction.js:12-18 | do, undo, do equals a single do |
| AddSong.NoCurrentListUnchanged | public_html/src/playlister/PlaylisterModel.js:328 | with no current list, do and undo leave every playlist unchanged |
| EditSong.EditSongTransaction.constructor | public_html/src/playlister/transactions/EditSong_Transaction.js:4-14 | captures the model, the old and new triples and the index |
| EditSong.EditSongTransaction.DoTransaction | public_html/src/playlister/transactions/EditSong_Transaction.js:16-18 | sets song i to the normalized new fields; nothing else changes |
| EditSong.EditSongTransaction.UndoTransaction | public_html/src/playlister/transactions/EditSong_Transaction.js:20-22 | sets song i to the normalized old fields; nothing else changes |
| EditSong.UndoAfterDo | public_html/src/playlister/transactions/EditSong_Transaction.js:16-22 | undo after do restores the sequence when the old triple is the song's previous, non-empty fields |
| EditSong.DoTwice | public_html/src/playlister/transactions/EditSong_Transaction.js:16-18 | do is idempotent |
| EditSong.DoAfterUndo | public_html/src/playlister/transactions/EditSong_Transaction.js:16-22 | undo followed by do equals do |
| DeleteSong.DeleteSongTransaction.constructor | public_html/src/playlister/transactions/DeleteSong_Transaction.js:4-9 | captures the index and the song at that index at construction time, before any removal |
| DeleteSong.DeleteSongTransaction.DoTransaction | public_html/src/playlister/transactions/DeleteSong_Transaction.js:11-13 | shortens the current list by one, removing position i; the others keep their order |
| DeleteSong.DeleteSongTransaction.UndoTransaction | public_html/src/playlister/transactions/DeleteSong_Transaction.js:15-17 | puts the captured song back at index i |
| DeleteSong.UndoAfterDo | public_html/src/playlister/transactions/DeleteSong_Transaction.js:11-17 | undo after do restores the original sequence by value |
| DeleteSong.RedoAfterUndo | public_html/src/playlister/transactions/DeleteSong_Transaction.js:11-17 | do, undo, do equals a single do |

## Left out

- View calls are not modelled, because they are rendering only and touch no modelled state. This covers `setView`, `refreshToolbar`, `addListOff`, `listLoaded`, `undoOn`/`undoOff`/`redoOn`/`redoOff`, `unselectAll`, `restoreList`, and every `this.view.…` call inside the modelled methods.
- `loadLists` and `saveLists` are not modelled, because they are browser storage plus JSON serialisation. `saveLists` is treated as a no-op.
- The undo history `tps` is not modelled, because jsTPS.js is not part of this model. Its cursor and truncation rules are not visible.
  - `undo`/`redo` only guard calls into it, so they are left out too.
  - Every call that clears the history is counted in the ghost field `cleared`.
- MoveSong_Transaction.js is not part of this model. `addMoveSongTransaction`, `addAddSongTransaction`, `addEditSongTransaction` and `addDeleteSongTransaction` only construct a transaction and hand it to `tps`, so they are left out.
- `getDeleteListId`/`setDeleteListId` are left out, because they only store the id the confirmation dialog works on.
- Songs are values, not shared JavaScript objects.
  - `deleteSong` filters by reference identity. It is modelled as removal at the index, which is the same because every song is a distinct object.
  - `editSong` assigns the fields of the song object in place. It is modelled as writing the new song value at the index.
- Indices are never checked in the JavaScript program, so JavaScript's clamping of `splice` and `undefined` reads are not modelled. In-range indices are preconditions.
- Playlister.PlaylisterModel.GetPlaylistSize: requires a loaded list (`currentList != null`). `getPlaylistSize` has no guard. The JavaScript program assumes a loaded list and throws a `TypeError` on `null` without one, and that error path is not modelled.
- Playlister.PlaylisterModel.GetSong: requires a loaded list (`currentList != null`). `getSong` has no guard. The JavaScript program assumes a loaded list and throws a `TypeError` on `null` without one, and that error path is not modelled.
- Playlister.PlaylisterModel.EditSong: requires a loaded list (`currentList != null`). `editSong` has no guard. The JavaScript program assumes a loaded list and throws a `TypeError` on `null` without one, and that error path is not modelled.
- Playlister.PlaylisterModel.DeleteSong: requires a loaded list (`currentList != null`). `deleteSong` has no guard. The JavaScript program assumes a loaded list and throws a `TypeError` on `null` without one, and that error path is not modelled.
- EditSong.EditSongTransaction.DoTransaction: requires a loaded list (`currentList != null`). It calls `editSong`, which has no guard. The JavaScript program assumes a loaded list and throws a `TypeError` on `null` without one, and that error path is not modelled.
- EditSong.EditSongTransaction.UndoTransaction: requires a loaded list (`currentList != null`). It calls `editSong`, which has no guard. The JavaScript program assumes a loaded list and throws a `TypeError` on `null` without one, and that error path is not modelled.
- DeleteSong.DeleteSongTransaction.constructor: requires a loaded list (`currentList != null`). It reads the current list's song through `getSong`, which has no guard. The JavaScript program assumes a loaded list and throws a `TypeError` on `null` without one, and that error path is not modelled.
- A new `Playlist` leaves `name` and `songs` undefined until they are set. The model starts them at `""` and `[]`.
- Playlister.PlaylisterModel.AddNewList: requires a non-empty name, so the model has no list whose name is undefined. The JavaScript program sets the name only when it is truthy. `addNewList("")` itself succeeds when it is the only list, because sorting a single list never calls the comparator. The first later sort of two or more lists then calls `toUpperCase` on the undefined name and throws a `TypeError`. `initSongs` is always set, since every array is truthy.
- Playlister.PlaylisterModel.RenameCurrentList: when a list is loaded but no list has the id, the JavaScript program throws a `TypeError` before changing anything. The model returns `ok == false` and changes nothing.
- Playlister.PlaylisterModel.SortLists: does not state that the sort is stable. Lists with equal upper-cased names keep their relative order in the modelled insertion sort, as in JavaScript's stable `Array.prototype.sort`, but this is not proved.
- `toUpperCase` is modelled for ASCII letters only. JavaScript's `<` compares UTF-16 code units, while the model compares Unicode code points. The two differ only outside the Basic Multilingual Plane.
