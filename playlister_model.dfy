/** The editor's model: every playlist, the one currently loaded, the id counter,
    and the primitive song mutators the edit transactions call. */
module Playlister {
  import opened Songs
  import opened ListNames
  import opened Playlists

  /** The name a list gets when it is renamed to the empty string. */
  const DefaultListName: string := "Untitled"

  /** No two positions hold playlists with the same id. */
  ghost predicate IdsDistinct(ps: seq<Playlist>)
  {
    forall k, l :: 0 <= k < |ps| && 0 <= l < |ps| && k != l ==> ps[k].id != ps[l].id
  }

  /** Every id in use is below the next id to be handed out. */
  ghost predicate IdsBelow(ps: seq<Playlist>, bound: nat)
  {
    forall p :: p in ps ==> p.id < bound
  }

  /** The index of the first playlist with the given id, or -1 when there is none. */
  function IndexOfId(ps: seq<Playlist>, id: int): (r: int)
    ensures -1 <= r < |ps|
    ensures r == -1 <==> forall k :: 0 <= k < |ps| ==> ps[k].id != id
    ensures 0 <= r ==> ps[r].id == id && forall k :: 0 <= k < r ==> ps[k].id != id
  {
    if ps == [] then -1
    else if ps[0].id == id then 0
    else
      var r := IndexOfId(ps[1..], id);
      if r == -1 then -1 else r + 1
  }

  /** `ps.filter(list => list.id !== id)`. */
  function WithoutId(ps: seq<Playlist>, id: int): (r: seq<Playlist>)
    ensures forall p :: p in r ==> p in ps && p.id != id
    ensures forall p :: p in ps && p.id != id ==> p in r
    ensures |r| <= |ps|
    ensures IndexOfId(ps, id) == -1 ==> r == ps
  {
    if ps == [] then []
    else (if ps[0].id == id then [] else [ps[0]]) + WithoutId(ps[1..], id)
  }

  /** Filtering by id keeps the ids distinct, and with distinct ids it removes
      exactly one playlist when the id is present. */
  lemma {:induction false} WithoutIdDistinct(ps: seq<Playlist>, id: int)
    requires IdsDistinct(ps)
    ensures IdsDistinct(WithoutId(ps, id))
    ensures IndexOfId(ps, id) >= 0 ==> |WithoutId(ps, id)| == |ps| - 1
  {
    if ps != [] {
      var tail := ps[1..];
      assert IdsDistinct(tail) by {
        forall k, l | 0 <= k < |tail| && 0 <= l < |tail| && k != l
          ensures tail[k].id != tail[l].id
        {
          assert tail[k] == ps[k + 1] && tail[l] == ps[l + 1];
        }
      }
      assert forall p :: p in tail ==> p.id != ps[0].id by {
        forall p | p in tail ensures p.id != ps[0].id {
          var m :| 0 <= m < |tail| && tail[m] == p;
          assert ps[m + 1] == p;
        }
      }
      WithoutIdDistinct(tail, id);
      var rest := WithoutId(tail, id);
      if ps[0].id != id {
        assert WithoutId(ps, id) == [ps[0]] + rest;
        forall k, l | 0 <= k < |[ps[0]] + rest| && 0 <= l < |[ps[0]] + rest| && k != l
          ensures ([ps[0]] + rest)[k].id != ([ps[0]] + rest)[l].id
        {
          if k == 0 {
            assert rest[l - 1] in rest;
          } else if l == 0 {
            assert rest[k - 1] in rest;
          }
        }
      } else {
        assert IndexOfId(tail, id) == -1 by {
          forall k | 0 <= k < |tail| ensures tail[k].id != id {
            assert tail[k] in tail;
          }
        }
        assert WithoutId(ps, id) == rest == tail;
      }
    }
  }

  /** p may stand before q once the lists are sorted. */
  predicate NameOrdered(p: Playlist, q: Playlist)
    reads p, q
  {
    NotAfter(Upper(p.name), Upper(q.name))
  }

  /** Playlists in non-decreasing order of upper-cased name. */
  ghost predicate SortedByName(ps: seq<Playlist>)
    reads set p | p in ps
  {
    forall k, l :: 0 <= k < l < |ps| ==> NameOrdered(ps[k], ps[l])
  }

  /** The first n playlists are in order. */
  ghost predicate SortedPrefix(ps: seq<Playlist>, n: nat)
    requires n <= |ps|
    reads set p | p in ps
  {
    forall k, l :: 0 <= k < l < n ==> NameOrdered(ps[k], ps[l])
  }

  /** Exchanging two neighbours keeps the elements and the distinct ids. */
  lemma SwapKeeps(a: seq<Playlist>, j: nat)
    requires 0 < j < |a|
    requires IdsDistinct(a)
    ensures multiset(a[j - 1 := a[j]][j := a[j - 1]]) == multiset(a)
    ensures IdsDistinct(a[j - 1 := a[j]][j := a[j - 1]])
  {
  }

  /** One pass of the insertion sort that `sortLists`'s comparator drives: the element at
      position i moves left past every strictly greater name, so after it the first
      i + 1 playlists are in order and the pass has only permuted them. */
  method InsertIntoPrefix(a: seq<Playlist>, i: nat) returns (b: seq<Playlist>)
    requires i < |a|
    requires IdsDistinct(a)
    requires SortedPrefix(a, i)
    ensures |b| == |a|
    ensures multiset(b) == multiset(a)
    ensures IdsDistinct(b)
    ensures SortedPrefix(b, i + 1)
  {
    b := a;
    var j := i;
    while j > 0 && Compare(Upper(b[j - 1].name), Upper(b[j].name)) > 0
      invariant 0 <= j <= i
      invariant |b| == |a|
      invariant multiset(b) == multiset(a)
      invariant IdsDistinct(b)
      invariant forall k, l :: 0 <= k < l <= i && k != j && l != j ==> NameOrdered(b[k], b[l])
      invariant forall l :: j < l <= i ==> NameOrdered(b[j], b[l])
    {
      SwapKeeps(b, j);
      b := b[j - 1 := b[j]][j := b[j - 1]];
      j := j - 1;
    }
    forall k | 0 <= k < j
      ensures NameOrdered(b[k], b[j])
    {
      if k < j - 1 {
        NotAfterTransitive(Upper(b[k].name), Upper(b[j - 1].name), Upper(b[j].name));
      }
    }
  }

  class PlaylisterModel {
    var playlists: seq<Playlist>
    var currentList: Playlist?
    var nextListId: nat
    var confirmDialogOpen: bool
    var editDialogOpen: bool
    /** How many times the undo history has been cleared. */
    ghost var cleared: nat

    /** Ids are unique and below the counter, and the current list is one of the lists. */
    ghost predicate Valid()
      reads this
    {
      && IdsDistinct(playlists)
      && IdsBelow(playlists, nextListId)
      && (currentList != null ==> currentList in playlists)
    }

    constructor ()
      ensures Valid()
      ensures playlists == [] && currentList == null && nextListId == 0
      ensures !confirmDialogOpen && !editDialogOpen && cleared == 0
    {
      playlists := [];
      currentList := null;
      nextListId := 0;
      confirmDialogOpen := false;
      editDialogOpen := false;
      cleared := 0;
    }

    // ---- Accessors --------------------------------------------------------

    method GetList(index: nat) returns (list: Playlist)
      requires index < |playlists|
      ensures list == playlists[index]
    {
      list := playlists[index];
    }

    /** The position of the first list with the given id, or -1. */
    method GetListIndex(id: int) returns (r: int)
      ensures r == IndexOfId(playlists, id)
    {
      for i := 0 to |playlists|
        invariant forall k :: 0 <= k < i ==> playlists[k].id != id
      {
        var list := playlists[i];
        if list.id == id {
          return i;
        }
      }
      return -1;
    }

    method GetPlaylistSize() returns (size: nat)
      requires currentList != null
      ensures size == |currentList.songs|
    {
      size := |currentList.songs|;
    }

    method GetSong(index: nat) returns (song: Song)
      requires currentList != null && index < |currentList.songs|
      ensures song == currentList.songs[index]
    {
      song := currentList.songs[index];
    }

    method HasCurrentList() returns (b: bool)
      ensures b <==> currentList != null
    {
      b := currentList != null;
    }

    method ToggleConfirmDialogOpen() returns (open: bool)
      modifies this`confirmDialogOpen
      ensures confirmDialogOpen == !old(confirmDialogOpen) && open == confirmDialogOpen
    {
      confirmDialogOpen := !confirmDialogOpen;
      open := confirmDialogOpen;
    }

    method ToggleEditDialogOpen() returns (open: bool)
      modifies this`editDialogOpen
      ensures editDialogOpen == !old(editDialogOpen) && open == editDialogOpen
    {
      editDialogOpen := !editDialogOpen;
      open := editDialogOpen;
    }

    // ---- Managing the lists -----------------------------------------------

    /** Sorts the lists by upper-cased name with `sortLists`'s comparator
        (an insertion sort: an element moves left only past strictly greater names). */
    method SortLists()
      requires Valid()
      modifies this`playlists
      ensures Valid()
      ensures multiset(playlists) == multiset(old(playlists))
      ensures SortedByName(playlists)
    {
      var a := playlists;
      var i := 0;
      while i < |a|
        invariant 0 <= i <= |a|
        invariant playlists == old(playlists)
        invariant multiset(a) == multiset(playlists)
        invariant IdsDistinct(a)
        invariant SortedPrefix(a, i)
      {
        a := InsertIntoPrefix(a, i);
        i := i + 1;
      }
      playlists := a;
      assert forall p :: p in playlists <==> p in old(playlists) by {
        forall p ensures p in playlists <==> p in old(playlists) {
          assert p in playlists <==> p in multiset(playlists);
        }
      }
    }

    /** Creates a list with the next id, gives it the name and songs, and re-sorts.
        The JavaScript program sets the name only when it is truthy; an unnamed list makes
        the first sort that compares it with another list fail, so a name is required. */
    method AddNewList(initName: string, initSongs: seq<Song>) returns (newList: Playlist)
      requires Valid()
      requires initName != ""
      modifies this`playlists, this`nextListId
      ensures Valid()
      ensures fresh(newList)
      ensures newList.id == old(nextListId) && nextListId == old(nextListId) + 1
      ensures newList.name == initName && newList.songs == initSongs
      ensures multiset(playlists) == multiset(old(playlists)) + multiset{newList}
      ensures SortedByName(playlists)
      ensures currentList == old(currentList)
    {
      newList := new Playlist(nextListId);
      nextListId := nextListId + 1;
      newList.SetName(initName);
      newList.SetSongs(initSongs);
      playlists := playlists + [newList];
      SortLists();
    }

    /** Loads the list with the given id; reloading the current list does nothing. */
    method LoadList(id: int)
      requires Valid()
      modifies this`currentList, this`cleared
      ensures Valid()
      ensures old(currentList) != null && id == old(currentList).id ==>
                currentList == old(currentList) && cleared == old(cleared)
      ensures !(old(currentList) != null && id == old(currentList).id) ==>
                && cleared == old(cleared) + 1
                && currentList == (if IndexOfId(playlists, id) >= 0
                                   then playlists[IndexOfId(playlists, id)]
                                   else old(currentList))
    {
      if currentList != null && id == currentList.id {
        return;
      }
      var list: Playlist? := null;
      var found := false;
      var i := 0;
      while i < |playlists| && !found
        invariant 0 <= i <= |playlists|
        invariant cleared == old(cleared)
        invariant !found ==> currentList == old(currentList)
        invariant !found ==> forall k :: 0 <= k < i ==> playlists[k].id != id
        invariant found ==> 0 < i && currentList == playlists[i - 1] && playlists[i - 1].id == id
        invariant found ==> forall k :: 0 <= k < i - 1 ==> playlists[k].id != id
      {
        list := playlists[i];
        if list.id == id {
          currentList := list;
          found := true;
        }
        i := i + 1;
      }
      cleared := cleared + 1;
    }

    /** Closes the current list; the history is cleared only if a list was open. */
    method UnselectCurrentList()
      requires Valid()
      modifies this`currentList, this`cleared
      ensures Valid()
      ensures currentList == null
      ensures cleared == old(cleared) + (if old(currentList) != null then 1 else 0)
    {
      if currentList != null {
        currentList := null;
        cleared := cleared + 1;
      }
    }

    /** Renames the list with the given id (the empty name becomes "Untitled") and
        re-sorts; does nothing when no list is loaded. ok is false where the JavaScript
        program would fail: a list is loaded but no list has that id. */
    method RenameCurrentList(initName: string, id: int) returns (ok: bool)
      requires Valid()
      modifies this`playlists, set p | p in playlists
      ensures Valid()
      ensures ok <==> (old(currentList) == null || IndexOfId(old(playlists), id) >= 0)
      ensures forall p :: p in old(playlists) ==> p.songs == old(p.songs)
      ensures !ok || old(currentList) == null ==>
                playlists == old(playlists) &&
                forall p :: p in old(playlists) ==> p.name == old(p.name)
      ensures ok && old(currentList) != null ==>
                var target := old(playlists)[IndexOfId(old(playlists), id)];
                && target.name == (if initName == "" then DefaultListName else initName)
                && (forall p :: p in old(playlists) && p != target ==> p.name == old(p.name))
                && multiset(playlists) == multiset(old(playlists))
                && SortedByName(playlists)
    {
      if currentList == null {
        return true;
      }
      var index := GetListIndex(id);
      if index < 0 {
        return false;
      }
      var targetList := playlists[index];
      if initName == "" {
        targetList.SetName(DefaultListName);
      } else {
        targetList.SetName(initName);
      }
      SortLists();
      ok := true;
    }

    /** Removes every list with the given id. The history is cleared when the list removed
        is the current one, and also when no list has the id and none is loaded: the JavaScript
        program compares an undefined lookup result with the null current list using `==`. */
    method DeleteList(id: int)
      requires Valid()
      modifies this`playlists, this`currentList, this`cleared
      ensures Valid()
      ensures playlists == WithoutId(old(playlists), id)
      ensures |playlists| == |old(playlists)| - (if IndexOfId(old(playlists), id) >= 0 then 1 else 0)
      ensures old(currentList) != null && old(currentList).id == id ==>
                currentList == null && cleared == old(cleared) + 1
      ensures old(currentList) != null && old(currentList).id != id ==>
                currentList == old(currentList) && cleared == old(cleared)
      ensures old(currentList) == null ==>
                currentList == null &&
                cleared == old(cleared) + (if IndexOfId(old(playlists), id) == -1 then 1 else 0)
    {
      var index := GetListIndex(id);
      var toBeDeleted: Playlist? := if index >= 0 then playlists[index] else null;
      WithoutIdDistinct(playlists, id);
      if currentList != null && currentList.id == id {
        var m :| 0 <= m < |playlists| && playlists[m] == currentList;
        assert m == index;
      }
      playlists := WithoutId(playlists, id);
      if toBeDeleted == currentList {
        currentList := null;
        cleared := cleared + 1;
      }
    }

    // ---- Mutating the current list's songs -------------------------------

    /** Appends a song with the given fields, unnormalized, to the current list. */
    method AddNewSong(initTitle: string, initArtist: string, initYouTubeId: string)
      modifies currentList
      ensures currentList != null ==> currentList.name == old(currentList.name)
      ensures currentList != null ==>
                currentList.songs == old(currentList.songs) + [Song(initTitle, initArtist, initYouTubeId)]
    {
      if currentList != null {
        currentList.AddSong(initTitle, initArtist, initYouTubeId);
      }
    }

    /** Overwrites the song at index with the given fields, each empty one defaulted. */
    method EditSong(title: string, artist: string, youTubeId: string, index: nat)
      requires currentList != null && index < |currentList.songs|
      modifies currentList
      ensures currentList.name == old(currentList.name)
      ensures currentList.songs == EditAt(old(currentList.songs), index, title, artist, youTubeId)
    {
      var targetSong := currentList.GetSongAt(index);
      if title == "" {
        targetSong := targetSong.(title := DefaultTitle);
      } else {
        targetSong := targetSong.(title := title);
      }
      if artist == "" {
        targetSong := targetSong.(artist := DefaultArtist);
      } else {
        targetSong := targetSong.(artist := artist);
      }
      if youTubeId == "" {
        targetSong := targetSong.(youTubeId := DefaultYouTubeId);
      } else {
        targetSong := targetSong.(youTubeId := youTubeId);
      }
      currentList.SetSongAt(index, targetSong);
    }

    /** Removes the song at position i; the others keep their order. */
    method DeleteSong(i: nat)
      requires currentList != null && i < |currentList.songs|
      modifies currentList
      ensures currentList.name == old(currentList.name)
      ensures currentList.songs == Remove(old(currentList.songs), i)
    {
      DropIndexIsRemove(currentList.songs, i);
      currentList.songs := DropIndex(currentList.songs, i);
    }

    /** Takes the song at fromIndex out and reinserts it at toIndex. */
    method MoveSong(fromIndex: nat, toIndex: nat)
      requires currentList != null ==> fromIndex < |currentList.songs| && toIndex < |currentList.songs|
      modifies currentList
      ensures currentList != null ==> currentList.name == old(currentList.name)
      ensures currentList != null ==>
                currentList.songs == Moved(old(currentList.songs), fromIndex, toIndex)
    {
      if currentList != null {
        var tempArray := DropIndex(currentList.songs, fromIndex);
        DropIndexIsRemove(currentList.songs, fromIndex);
        var moving := currentList.GetSongAt(fromIndex);
        tempArray := Insert(tempArray, toIndex, moving);
        currentList.songs := tempArray;
      }
    }

    /** The effect of an add transaction: append when isDo, drop the last song otherwise. */
    method DoSong(initTitle: string, initArtist: string, initYouTubeId: string, isDo: bool)
      modifies currentList
      ensures currentList != null ==> currentList.name == old(currentList.name)
      ensures currentList != null ==>
                currentList.songs == if isDo then old(currentList.songs) + [Song(initTitle, initArtist, initYouTubeId)]
                                     else DropLast(old(currentList.songs))
    {
      if currentList != null {
        if isDo {
          AddNewSong(initTitle, initArtist, initYouTubeId);
        } else {
          var n := |currentList.songs|;
          currentList.songs := currentList.songs[..if n - 1 < 0 then 0 else n - 1];
        }
      }
    }

    /** The effect of a delete transaction: remove position i when isDo; otherwise
        append the song and move it from the end to position i. */
    method DoDeleteSong(i: nat, title: string, artist: string, youTubeId: string, isDo: bool)
      requires currentList != null ==>
                 if isDo then i < |currentList.songs| else i <= |currentList.songs|
      modifies currentList
      ensures currentList != null ==> currentList.name == old(currentList.name)
      ensures currentList != null ==>
                currentList.songs == if isDo then Remove(old(currentList.songs), i)
                                     else Insert(old(currentList.songs), i, Song(title, artist, youTubeId))
    {
      if currentList != null {
        if isDo {
          DeleteSong(i);
        } else {
          ghost var before := currentList.songs;
          AddNewSong(title, artist, youTubeId);
          MoveSong(|currentList.songs| - 1, i);
          MovedFromEnd(before, Song(title, artist, youTubeId), i);
        }
      }
    }
  }
}
