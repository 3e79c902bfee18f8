/** Songs, and the sequence edits the playlist editor applies to a list of songs.
    The editor identifies a song by its position in the list, so songs are values. */
module Songs {

  /** A song record as the editor stores it. */
  datatype Song = Song(title: string, artist: string, youTubeId: string)

  /** The defaults an edit substitutes for empty fields. */
  const DefaultTitle: string := "Untitled"
  const DefaultArtist: string := "Unknown"
  const DefaultYouTubeId: string := "dQw4w9WgXcQ"

  /** The song an edit writes: every empty field replaced by its default,
      every non-empty field copied. */
  function Normalize(title: string, artist: string, youTubeId: string): (r: Song)
    ensures r.title != "" && r.artist != "" && r.youTubeId != ""
    ensures title != "" ==> r.title == title
    ensures artist != "" ==> r.artist == artist
    ensures youTubeId != "" ==> r.youTubeId == youTubeId
    ensures title == "" ==> r.title == DefaultTitle
    ensures artist == "" ==> r.artist == DefaultArtist
    ensures youTubeId == "" ==> r.youTubeId == DefaultYouTubeId
  {
    Song(if title == "" then DefaultTitle else title,
         if artist == "" then DefaultArtist else artist,
         if youTubeId == "" then DefaultYouTubeId else youTubeId)
  }

  /** Normalizing an already normalized song changes nothing. */
  lemma NormalizeIdempotent(title: string, artist: string, youTubeId: string)
    ensures var n := Normalize(title, artist, youTubeId);
            Normalize(n.title, n.artist, n.youTubeId) == n
  {
  }

  /** A song with no empty field is its own normal form. */
  lemma NormalizeFilled(s: Song)
    requires s.title != "" && s.artist != "" && s.youTubeId != ""
    ensures Normalize(s.title, s.artist, s.youTubeId) == s
  {
  }

  /** `s.splice(i, 1)`: the sequence without position i. */
  function Remove<T>(s: seq<T>, i: nat): seq<T>
    requires i < |s|
  {
    s[..i] + s[i + 1..]
  }

  /** `s.splice(i, 0, x)`: x inserted in front of position i. */
  function Insert<T>(s: seq<T>, i: nat, x: T): seq<T>
    requires i <= |s|
  {
    s[..i] + [x] + s[i..]
  }

  /** Extract-then-reinsert: the element at `from` taken out and put back at `to`. */
  function Moved<T>(s: seq<T>, from: nat, to: nat): seq<T>
    requires from < |s| && to < |s|
  {
    Insert(Remove(s, from), to, s[from])
  }

  /** `s.filter((_, k) => k !== i)`, written as the filter walks the sequence. */
  function DropIndex<T>(s: seq<T>, i: int): seq<T>
  {
    if s == [] then []
    else (if i == 0 then [] else [s[0]]) + DropIndex(s[1..], i - 1)
  }

  /** `s.slice(0, s.length - 1)`: a negative end counts from the back and clamps at 0,
      so the empty sequence stays empty. */
  function DropLast<T>(s: seq<T>): seq<T>
  {
    s[..if |s| == 0 then 0 else |s| - 1]
  }

  /** An edit of position i: the song there replaced by the normalized fields. */
  function EditAt(s: seq<Song>, i: nat, title: string, artist: string, youTubeId: string): seq<Song>
    requires i < |s|
  {
    s[i := Normalize(title, artist, youTubeId)]
  }

  // ---- Removal and insertion --------------------------------------------

  /** Removing position i keeps every other element, in order. */
  lemma RemoveAt<T>(s: seq<T>, i: nat)
    requires i < |s|
    ensures |Remove(s, i)| == |s| - 1
    ensures forall k :: 0 <= k < i ==> Remove(s, i)[k] == s[k]
    ensures forall k :: i <= k < |s| - 1 ==> Remove(s, i)[k] == s[k + 1]
    ensures multiset(Remove(s, i)) + multiset{s[i]} == multiset(s)
  {
    assert s == s[..i] + [s[i]] + s[i + 1..];
  }

  /** Inserting at i shifts the elements from i on by one and keeps the rest. */
  lemma InsertAt<T>(s: seq<T>, i: nat, x: T)
    requires i <= |s|
    ensures |Insert(s, i, x)| == |s| + 1
    ensures Insert(s, i, x)[i] == x
    ensures forall k :: 0 <= k < i ==> Insert(s, i, x)[k] == s[k]
    ensures forall k :: i < k <= |s| ==> Insert(s, i, x)[k] == s[k - 1]
    ensures multiset(Insert(s, i, x)) == multiset(s) + multiset{x}
  {
    assert s == s[..i] + s[i..];
  }

  /** Putting the removed element back where it was restores the sequence. */
  lemma InsertRemove<T>(s: seq<T>, i: nat)
    requires i < |s|
    ensures Insert(Remove(s, i), i, s[i]) == s
  {
  }

  /** Removing what was just inserted restores the sequence. */
  lemma RemoveInsert<T>(s: seq<T>, i: nat, x: T)
    requires i <= |s|
    ensures Remove(Insert(s, i, x), i) == s
  {
  }

  /** The filter with a negative index keeps everything. */
  lemma {:induction false} DropIndexNone<T>(s: seq<T>, i: int)
    requires i < 0
    ensures DropIndex(s, i) == s
  {
    if s != [] {
      DropIndexNone(s[1..], i - 1);
      assert s == [s[0]] + s[1..];
    }
  }

  /** Filtering out index i is the same as splicing out position i. */
  lemma {:induction false} DropIndexIsRemove<T>(s: seq<T>, i: nat)
    requires i < |s|
    ensures DropIndex(s, i) == Remove(s, i)
  {
    if i == 0 {
      DropIndexNone(s[1..], -1);
    } else {
      DropIndexIsRemove(s[1..], i - 1);
      assert s[1..][..i - 1] == s[1..i];
      assert s[1..][i..] == s[i + 1..];
      assert s[..i] == [s[0]] + s[1..i];
    }
  }

  // ---- Moving -------------------------------------------------------------

  /** A move keeps the length and the elements, puts the moved element at `to`,
      and leaves the other elements in their relative order. */
  lemma MovedShape<T>(s: seq<T>, from: nat, to: nat)
    requires from < |s| && to < |s|
    ensures |Moved(s, from, to)| == |s|
    ensures Moved(s, from, to)[to] == s[from]
    ensures multiset(Moved(s, from, to)) == multiset(s)
    ensures Remove(Moved(s, from, to), to) == Remove(s, from)
  {
    RemoveAt(s, from);
    InsertAt(Remove(s, from), to, s[from]);
    RemoveInsert(Remove(s, from), to, s[from]);
  }

  /** Moving an element onto its own position changes nothing. */
  lemma MovedSelf<T>(s: seq<T>, i: nat)
    requires i < |s|
    ensures Moved(s, i, i) == s
  {
  }

  /** Moving from a to b and then from b to a restores the order. */
  lemma MovedInverse<T>(s: seq<T>, a: nat, b: nat)
    requires a < |s| && b < |s|
    ensures Moved(Moved(s, a, b), b, a) == s
  {
    var m := Moved(s, a, b);
    MovedShape(s, a, b);
    assert Remove(m, b) == Remove(s, a);
    assert m[b] == s[a];
    InsertRemove(s, a);
  }

  /** Appending an element and moving it from the end to i inserts it at i. */
  lemma MovedFromEnd<T>(s: seq<T>, x: T, i: nat)
    requires i <= |s|
    ensures Moved(s + [x], |s|, i) == Insert(s, i, x)
  {
  }

  // ---- Appending and dropping the last song ------------------------------

  /** Dropping the last element undoes an append. */
  lemma DropLastAppend<T>(s: seq<T>, x: T)
    ensures DropLast(s + [x]) == s
  {
  }

  /** Dropping the last element shortens a non-empty sequence by one and keeps its prefix;
      the empty sequence stays empty. */
  lemma DropLastShape<T>(s: seq<T>)
    ensures s == [] ==> DropLast(s) == []
    ensures s != [] ==> |DropLast(s)| == |s| - 1 && DropLast(s) + [s[|s| - 1]] == s
  {
  }

  // ---- Editing ------------------------------------------------------------

  /** An edit changes position i only and keeps the length. */
  lemma EditAtShape(s: seq<Song>, i: nat, title: string, artist: string, youTubeId: string)
    requires i < |s|
    ensures |EditAt(s, i, title, artist, youTubeId)| == |s|
    ensures EditAt(s, i, title, artist, youTubeId)[i] == Normalize(title, artist, youTubeId)
    ensures forall k :: 0 <= k < |s| && k != i ==> EditAt(s, i, title, artist, youTubeId)[k] == s[k]
  {
  }

  /** Applying the same edit twice equals applying it once. */
  lemma EditAtIdempotent(s: seq<Song>, i: nat, title: string, artist: string, youTubeId: string)
    requires i < |s|
    ensures var e := EditAt(s, i, title, artist, youTubeId);
            EditAt(e, i, title, artist, youTubeId) == e
  {
  }

  /** After an edit, an edit back to the song's previous fields restores the sequence,
      provided none of those fields was empty. */
  lemma EditAtUndo(s: seq<Song>, i: nat, title: string, artist: string, youTubeId: string)
    requires i < |s|
    requires s[i].title != "" && s[i].artist != "" && s[i].youTubeId != ""
    ensures EditAt(EditAt(s, i, title, artist, youTubeId), i, s[i].title, s[i].artist, s[i].youTubeId) == s
  {
  }

  /** Whatever edit came in between, the last edit of a position decides its song. */
  lemma EditAtOverwrites(s: seq<Song>, i: nat, t0: string, a0: string, y0: string,
                         t1: string, a1: string, y1: string)
    requires i < |s|
    ensures EditAt(EditAt(s, i, t0, a0, y0), i, t1, a1, y1) == EditAt(s, i, t1, a1, y1)
  {
  }
}
