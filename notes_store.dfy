// The notes store: the writer's notice boards, an edit copy of each bound to the
// editor, the "writer-notes" storage and the periodic check that saves edits and
// records them in the outbox.

module NotesStore {
  import opened Js
  import opened NoteData
  import CD = ChangeData
  import CS = ChangesStore
  import opened ApiTime

  /** Time (ms) to wait for the next check whether an edit needs saving. */
  const CHECK_INTERVAL := 200

  // ---------------------------------------------------------------------
  // Storage images

  /** The JSON image of a number: NaN is written as null. */
  function JsonNumber(n: Number): Value
  {
    if n.NaN? then Null else Num(n)
  }

  /** The storage item of a note, `JSON.stringify(note.getData())` read back. */
  function Image(n: Note): Value
  {
    Obj(map[
      "note_no" := JsonNumber(n.note_no),
      "note_text" := Str(n.note_text),
      "last_change" := if n.last_change.Some? then JsonNumber(n.last_change.value) else Null])
  }

  lemma ImageIsJson(n: Note)
    ensures Image(n) == JsonCopy(Obj(n.GetData()))
  {
    var m := n.GetData();
    var c := map k | k in m && !m[k].Undefined? :: JsonCopy(m[k]);
    assert JsonCopy(Obj(m)) == Obj(c);
    SameEntries(c, Image(n).fields);
  }

  /** The notes `loadFromStorage` rebuilds from the entries the index names; a missing entry
    * or one that is not an object is skipped. */
  function ReadNotes(storage: map<string, Value>, keys: seq<string>): map<string, Note>
  {
    if |keys| == 0 then map[]
    else
      var m := ReadNotes(storage, keys[..|keys| - 1]);
      var k := keys[|keys| - 1];
      if k in storage && IsObjectLike(storage[k]) then m[k := New(Fields(storage[k]))] else m
  }

  lemma {:induction false} ReadNotesWellFormed(storage: map<string, Value>, keys: seq<string>)
    ensures forall k :: k in ReadNotes(storage, keys) ==> k in keys && WellFormed(ReadNotes(storage, keys)[k])
    decreases |keys|
  {
    if |keys| > 0 {
      ReadNotesWellFormed(storage, keys[..|keys| - 1]);
      var k := keys[|keys| - 1];
      if k in storage && IsObjectLike(storage[k]) {
        NewWellFormed(Fields(storage[k]));
      }
      forall x | x in keys[..|keys| - 1] ensures x in keys {
        var i :| 0 <= i < |keys| - 1 && keys[..|keys| - 1][i] == x;
        assert keys[i] == x;
      }
    }
  }

  /** Every note and its edit copy: `notes[key] = note; editNotes[key] = note.getClone()`. */
  method ReadStoredNotes(storage: map<string, Value>, keys: seq<string>) returns (notes: map<string, Note>, editNotes: map<string, Note>)
    ensures notes == ReadNotes(storage, keys)
    ensures editNotes == notes && AllWellFormed(notes)
  {
    notes, editNotes := map[], map[];
    for i := 0 to |keys|
      invariant notes == ReadNotes(storage, keys[..i])
      invariant editNotes == notes
    {
      var key := keys[i];
      assert keys[..i + 1][..i] == keys[..i];
      if key in storage && IsObjectLike(storage[key]) {
        var note := New(Fields(storage[key]));
        NewWellFormed(Fields(storage[key]));
        CloneIsCopy(note);
        notes := notes[key := note];
        editNotes := editNotes[key := note.GetClone()];
      }
    }
    assert keys[..|keys|] == keys;
    ReadNotesWellFormed(storage, keys);
  }

  // ---------------------------------------------------------------------
  // Loading from the backend

  /** The notes built from the backend's plain objects, in data order. */
  function DataNotes(data: seq<map<string, Value>>): (r: seq<Note>)
    ensures |r| == |data| && forall i :: 0 <= i < |data| ==> r[i] == New(data[i])
  {
    seq(|data|, i requires 0 <= i < |data| => New(data[i]))
  }

  function KeysOf(ns: seq<Note>): (r: seq<string>)
    ensures |r| == |ns| && forall i :: 0 <= i < |ns| ==> r[i] == ns[i].GetKey()
  {
    seq(|ns|, i requires 0 <= i < |ns| => ns[i].GetKey())
  }

  /** The notes filed by key; a later note with the same key replaces an earlier one. */
  function ByKey(ns: seq<Note>): map<string, Note>
  {
    if |ns| == 0 then map[] else ByKey(ns[..|ns| - 1])[ns[|ns| - 1].GetKey() := ns[|ns| - 1]]
  }

  /** The storage items written for the notes, by key. */
  function Written(ns: seq<Note>): map<string, Value>
  {
    if |ns| == 0 then map[] else Written(ns[..|ns| - 1])[ns[|ns| - 1].GetKey() := Image(ns[|ns| - 1])]
  }

  /** What one more note adds to the keys, the notes by key and the items written. */
  lemma FileStep(ns: seq<Note>, i: int)
    requires 0 <= i < |ns|
    ensures KeysOf(ns[..i + 1]) == KeysOf(ns[..i]) + [ns[i].GetKey()]
    ensures ByKey(ns[..i + 1]) == ByKey(ns[..i])[ns[i].GetKey() := ns[i]]
    ensures Written(ns[..i + 1]) == Written(ns[..i])[ns[i].GetKey() := Image(ns[i])]
  {
    assert ns[..i + 1][..i] == ns[..i];
  }

  /** The loop of `loadFromData`: each note filed, given its edit copy, indexed and written. */
  method FileNotes(data: seq<map<string, Value>>) returns (keys: seq<string>, notes: map<string, Note>, editNotes: map<string, Note>, written: map<string, Value>)
    ensures keys == KeysOf(DataNotes(data))
    ensures notes == ByKey(DataNotes(data)) && editNotes == notes
    ensures written == Written(DataNotes(data))
  {
    ghost var ns := DataNotes(data);
    keys, notes, editNotes, written := [], map[], map[], map[];
    for i := 0 to |data|
      invariant keys == KeysOf(ns[..i])
      invariant notes == ByKey(ns[..i]) && editNotes == notes
      invariant written == Written(ns[..i])
    {
      var note := New(data[i]);
      var key := note.GetKey();
      assert ns[i] == note;
      FileStep(ns, i);
      NewWellFormed(data[i]);
      CloneIsCopy(note);
      notes := notes[key := note];
      editNotes := editNotes[key := note.GetClone()];
      keys := keys + [key];
      written := written[key := Image(note)];
    }
    assert ns[..|data|] == ns;
  }

  /** Every note filed by `ByKey` is the last one with its key, and its storage item is its image. */
  lemma {:induction false} WrittenMatchesByKey(ns: seq<Note>)
    ensures Written(ns).Keys == ByKey(ns).Keys
    ensures forall k :: k in ByKey(ns) ==> Written(ns)[k] == Image(ByKey(ns)[k])
    ensures forall k :: k in ByKey(ns) <==> k in KeysOf(ns)
    decreases |ns|
  {
    if |ns| > 0 {
      var init := ns[..|ns| - 1];
      WrittenMatchesByKey(init);
      assert KeysOf(ns) == KeysOf(init) + [ns[|ns| - 1].GetKey()];
    }
  }

  /** What `loadFromData` writes reads back, through `loadFromStorage`, as the same keys and
    * notes, provided no note carries NaN (JSON writes NaN as null). */
  lemma LoadedDataReloads(data: seq<map<string, Value>>)
    requires forall i :: 0 <= i < |data| ==> !HasNaN(New(data[i]))
    ensures var ns := DataNotes(data);
      var storage := Written(ns)["keys" := Index(KeysOf(ns))];
      StoredKeys(storage) == KeysOf(ns) && ReadNotes(storage, KeysOf(ns)) == ByKey(ns)
  {
    var ns := DataNotes(data);
    var keys := KeysOf(ns);
    var storage := Written(ns)["keys" := Index(keys)];
    IndexRoundTrip(keys);
    WrittenMatchesByKey(ns);
    ByKeyFromData(data);
    NoteKeysAreNotIndex(ns);
    ReadBack(storage, keys, ByKey(ns));
    SameEntries(ReadNotes(storage, keys), ByKey(ns));
  }

  /** No note is filed under the name of the key index. */
  lemma NoteKeysAreNotIndex(ns: seq<Note>)
    ensures forall k :: k in ByKey(ns) ==> k != "keys"
  {
    var keys := KeysOf(ns);
    WrittenMatchesByKey(ns);
    forall k | k in ByKey(ns) ensures k != "keys" {
      assert k in keys;
      var i :| 0 <= i < |keys| && keys[i] == k;
      assert k[..5] == "NOTE_";
    }
  }

  /** Every note filed from data is well formed. */
  lemma {:induction false} ByKeyWellFormed(data: seq<map<string, Value>>)
    ensures AllWellFormed(ByKey(DataNotes(data)))
    decreases |data|
  {
    if |data| > 0 {
      var init := data[..|data| - 1];
      assert DataNotes(data)[..|data| - 1] == DataNotes(init);
      ByKeyWellFormed(init);
      NewWellFormed(data[|data| - 1]);
    }
  }

  /** The notes filed from data are well-formed data notes. */
  lemma {:induction false} ByKeyFromData(data: seq<map<string, Value>>)
    requires forall i :: 0 <= i < |data| ==> !HasNaN(New(data[i]))
    ensures forall k :: k in ByKey(DataNotes(data)) ==> WellFormed(ByKey(DataNotes(data))[k]) && !HasNaN(ByKey(DataNotes(data))[k])
    decreases |data|
  {
    if |data| > 0 {
      var init := data[..|data| - 1];
      assert DataNotes(data)[..|data| - 1] == DataNotes(init);
      ByKeyFromData(init);
      NewWellFormed(data[|data| - 1]);
    }
  }

  /** The image of a note is an object the note is rebuilt from. */
  lemma ImageReadsBack(n: Note)
    requires WellFormed(n) && !HasNaN(n)
    ensures IsObjectLike(Image(n)) && New(Fields(Image(n))) == n
  {
    PersistedRoundTrip(n);
    ImageIsJson(n);
  }

  /** Reading keys whose storage items are the images of `target`'s notes gives those notes. */
  lemma {:induction false} ReadBack(storage: map<string, Value>, keys: seq<string>, target: map<string, Note>)
    requires forall k :: k in keys ==> k in target
    requires forall k :: k in target ==> k in storage && storage[k] == Image(target[k]) && WellFormed(target[k]) && !HasNaN(target[k])
    ensures forall k :: k in ReadNotes(storage, keys) <==> k in keys
    ensures forall k :: k in ReadNotes(storage, keys) ==> ReadNotes(storage, keys)[k] == target[k]
    decreases |keys|
  {
    if |keys| > 0 {
      var init := keys[..|keys| - 1];
      var k := keys[|keys| - 1];
      assert forall x :: x in keys <==> x in init || x == k;
      ReadBack(storage, init, target);
      ImageReadsBack(target[k]);
    }
  }

  // ---------------------------------------------------------------------
  // Preparing the notice boards

  /** `no < notes_count`: the count is converted to a number, and NaN compares false. */
  predicate BoardBelow(no: int, count: Value)
  {
    NumberLess(Finite(no as real), ToNumber(count))
  }

  /** How many boards `for (let no = 0; no < notes_count; no++)` visits: the loop runs while
    * the comparison holds and stops at the first board for which it fails, so a string or an
    * array is read as its number, null as 0, undefined, an object or NaN give none, and a
    * fraction is rounded up. */
  function BoardCount(count: Value): (n: nat)
    ensures forall no: nat :: no < n ==> BoardBelow(no, count)
    ensures !BoardBelow(n, count)
  {
    match ToNumber(count)
    case NaN => 0
    case Finite(r) => if r <= 0.0 then 0 else if r.Floor as real == r then r.Floor else r.Floor + 1
  }

  /** `hasNotes` (`notice_boards > 0`) holds exactly when `prepareNotes` creates a board for
    * the same count. */
  lemma BoardsIffPositive(count: Value)
    ensures BoardCount(count) > 0 <==> NumberLess(Finite(0.0), ToNumber(count))
  {
    if NumberLess(Finite(0.0), ToNumber(count)) {
      assert BoardBelow(0, count);
    }
  }

  /** A whole count gives that many boards, a negative one none. */
  lemma BoardCountOfInt(i: int)
    ensures BoardCount(Int(i)) == if i > 0 then i else 0
  {
    assert (i as real).Floor == i;
  }

  /** The keys of `n` notice boards, `NOTE_0` first. */
  function BoardKeys(n: int): (r: seq<string>)
    ensures |r| == (if n > 0 then n else 0)
    ensures forall i :: 0 <= i < |r| ==> r[i] == KeyForNo(Int(i))
  {
    seq(if n > 0 then n else 0, i requires 0 <= i => KeyForNo(Int(i)))
  }

  /** `new Note({note_no: no})` */
  function Blank(no: int): Note
  {
    New(map["note_no" := Int(no)])
  }

  lemma BlankNote(no: int)
    ensures Blank(no) == Note(Finite(no as real), "", None)
    ensures Blank(no).GetKey() == KeyForNo(Int(no))
  {
    ParseIntOfInt(no);
  }

  /** The keys of the boards numbered below `n`. */
  function BoardSet(n: int): set<string>
  {
    set j | 0 <= j < n :: KeyForNo(Int(j))
  }

  lemma BoardSetOfKeys(n: int)
    ensures forall k :: k in BoardKeys(n) <==> k in BoardSet(n)
  {
    var keys := BoardKeys(n);
    forall k | k in BoardSet(n) ensures k in keys {
      var j :| 0 <= j < n && k == KeyForNo(Int(j));
      assert keys[j] == k;
    }
  }

  /** Board `no` adds a key not among the lower boards'. */
  lemma BoardSetStep(no: int)
    requires 0 <= no
    ensures BoardSet(no + 1) == BoardSet(no) + {KeyForNo(Int(no))}
    ensures KeyForNo(Int(no)) !in BoardSet(no)
  {
    forall j | 0 <= j < no ensures KeyForNo(Int(j)) != KeyForNo(Int(no)) {
      KeyForNoInjective(j, no);
    }
  }

  /** `n` is a blank note whose key is `k`. */
  predicate BlankFor(k: string, n: Note)
  {
    n == Note(n.note_no, "", None) && n.note_no.Finite? && IsIntegral(n.note_no.r) && n.GetKey() == k
  }

  /** The blank note of a board is the one its number gives. */
  lemma BlankForBoard(i: int, n: Note)
    requires BlankFor(KeyForNo(Int(i)), n)
    ensures n == Blank(i)
  {
    var j := n.note_no.r.Floor;
    assert Num(n.note_no) == Int(j);
    KeyForNoInjective(i, j);
    BlankNote(i);
  }

  /** Adding blank notes keeps every note well formed. */
  lemma BlanksWellFormed(m: map<string, Note>, added: map<string, Note>)
    requires AllWellFormed(m) && forall k :: k in added ==> BlankFor(k, added[k])
    ensures AllWellFormed(m + added)
  {
  }

  /** Blank notes added to the notes and to the edit copies keep both well formed and keyed
    * alike. */
  lemma BlanksKeepCopies(notes: map<string, Note>, editNotes: map<string, Note>, added: map<string, Note>)
    requires editNotes.Keys == notes.Keys && AllWellFormed(notes) && AllWellFormed(editNotes)
    requires forall k :: k in added ==> BlankFor(k, added[k])
    ensures (editNotes + added).Keys == (notes + added).Keys
    ensures AllWellFormed(notes + added) && AllWellFormed(editNotes + added)
  {
    BlanksWellFormed(notes, added);
    BlanksWellFormed(editNotes, added);
  }

  /** The storage items of some notes. */
  function Images(m: map<string, Note>): map<string, Value>
  {
    map k | k in m :: Image(m[k])
  }

  lemma ImagesUpdate(m: map<string, Note>, k: string, n: Note)
    ensures Images(m[k := n]) == Images(m)[k := Image(n)]
  {
  }

  /** The loop of `prepareNotes`: the blank notes `added` for the boards that have no note yet,
    * each with an equal edit copy and its storage item, and whether `active` names a board. */
  method FillBoards(notes: map<string, Note>, editNotes: map<string, Note>, storage: map<string, Value>, n: int, active: Option<string>)
    returns (notes': map<string, Note>, editNotes': map<string, Note>, storage': map<string, Value>, activeIsValid: bool, ghost added: map<string, Note>)
    ensures activeIsValid <==> active.Some? && active.value in BoardSet(n)
    ensures forall k :: k in added <==> k in BoardSet(n) && k !in notes
    ensures forall k :: k in added ==> BlankFor(k, added[k])
    ensures notes' == notes + added && editNotes' == editNotes + added
    ensures storage' == storage + Images(added)
  {
    notes', editNotes', storage', activeIsValid, added := notes, editNotes, storage, false, map[];
    ghost var seen: set<string> := {};
    var no := 0;
    while no < n
      invariant no >= 0 && seen == BoardSet(no)
      invariant n >= 0 ==> no <= n
      invariant n < 0 ==> no == 0
      invariant activeIsValid <==> active.Some? && active.value in seen
      invariant forall k :: k in added <==> k in seen && k !in notes
      invariant forall k :: k in added ==> BlankFor(k, added[k])
      invariant notes' == notes + added && editNotes' == editNotes + added
      invariant storage' == storage + Images(added)
    {
      var key := KeyForNo(Int(no));
      BoardSetStep(no);
      if active == Some(key) {
        activeIsValid := true;
      }
      if key !in notes' {
        BlankNote(no);
        var note := Note(Finite(no as real), "", None);
        CloneIsCopy(note);
        MergeUpdate(notes, added, key, note);
        MergeUpdate(editNotes, added, key, note);
        MergeUpdate(storage, Images(added), key, Image(note));
        notes' := notes'[key := note];
        editNotes' := editNotes'[key := note.GetClone()];
        storage' := storage'[key := Image(note)];
        ImagesUpdate(added, key, note);
        added := added[key := note];
      }
      no := no + 1;
      seen := seen + {key};
    }
    assert seen == BoardSet(n) by {
      if n < 0 {
        assert BoardSet(n) == {};
      }
    }
  }

  // ---------------------------------------------------------------------
  // Saving edits

  /** The stored note an edit copy is compared with: `this.notes[key] ?? new Note()`. */
  function StoredNote(notes: map<string, Note>, k: string): Note
  {
    if k in notes then notes[k] else Default
  }

  /** Every note of the map has the numbers a note built from data has. */
  predicate AllWellFormed(m: map<string, Note>)
  {
    forall k :: k in m ==> WellFormed(m[k])
  }

  /** The edit copy of `k` differs from its stored note under `isEqual`. The source compares a
    * clone of the edit copy, which for a well-formed note is the note itself (`SaveOne` shows it). */
  predicate Edited(notes: map<string, Note>, editNotes: map<string, Note>, k: string)
  {
    k in editNotes && !editNotes[k].IsEqual(StoredNote(notes, k))
  }

  /** The note saved for an edit: the edit copy with the server time of the check. */
  function Stamped(edit: Note, serverTime: Number): Note
  {
    edit.(last_change := Some(serverTime))
  }

  /** A stamped well-formed note is well formed, and it is what the source builds: its
    * edit copy's clone with the time set, and that clone's data copied back onto the edit copy. */
  lemma StampedIsClone(edit: Note, serverTime: Number)
    requires WellFormed(edit) && IsWhole(serverTime)
    ensures WellFormed(Stamped(edit, serverTime))
    ensures Stamped(edit, serverTime) == edit.GetClone().(last_change := Some(serverTime))
    ensures edit.SetData(Stamped(edit, serverTime).GetData()) == Stamped(edit, serverTime)
  {
    CloneIsCopy(edit);
    ReadWhole(edit.note_no);
    ReadWhole(serverTime);
  }

  /** The marker data `updateContent` passes to the changes store for a saved note. */
  function SaveMarkerData(k: string): map<string, Value>
  {
    map["type" := Str(CD.TYPE_NOTES), "action" := Str(CD.ACTION_SAVE), "key" := Str(k)]
  }

  /** The outbox marker recorded for a saved note: a save of the note's key at the time of the check. */
  function SaveMarker(k: string, now: int): CD.Change
  {
    CD.Change(Some(CD.ACTION_SAVE), Some(CD.TYPE_NOTES), Str(k), Finite(now as real))
  }

  /** The marker built from that data is the save marker; it is valid unless the key is empty,
    * and it is filed under the note's key. */
  lemma SaveMarkerShape(k: string, now: int)
    ensures CD.New(SaveMarkerData(k), now) == SaveMarker(k, now)
    ensures SaveMarker(k, now).IsValid() <==> k != ""
    ensures SaveMarker(k, now).PropertyKey() == k
  {
    CD.NewIsValid(SaveMarkerData(k), now);
  }

  /** The keys whose edit copies differ from their stored notes. */
  function EditedKeys(notes: map<string, Note>, editNotes: map<string, Note>, keys: set<string>): (r: set<string>)
    ensures r <= keys
  {
    set k | k in keys && Edited(notes, editNotes, k)
  }

  /** The notes once the edit copies of `edited` are saved: each replaced by its stamped clone. */
  function NotesSaved(notes: map<string, Note>, editNotes: map<string, Note>, serverTime: Number, edited: set<string>): map<string, Note>
    requires edited <= editNotes.Keys
  {
    map k | k in notes.Keys + edited :: if k in edited then Stamped(editNotes[k], serverTime) else notes[k]
  }

  /** The edit copies once those of `edited` are saved: each takes the saved data. */
  function EditsSaved(editNotes: map<string, Note>, serverTime: Number, edited: set<string>): map<string, Note>
  {
    map k | k in editNotes :: if k in edited then Stamped(editNotes[k], serverTime) else editNotes[k]
  }

  /** The storage once the edit copies of `edited` are saved: each saved note's image. */
  function StorageSaved(storage: map<string, Value>, editNotes: map<string, Note>, serverTime: Number, edited: set<string>): map<string, Value>
    requires edited <= editNotes.Keys
  {
    map k | k in storage.Keys + edited :: if k in edited then Image(Stamped(editNotes[k], serverTime)) else storage[k]
  }

  /** The notes markers once the notes of `edited` are saved: one save marker per saved note
    * with a non-empty key, replacing an earlier one. */
  function MarkersSaved(markers: map<string, CD.Change>, now: int, edited: set<string>): map<string, CD.Change>
  {
    map k | k in markers.Keys + (edited - {""}) :: if k in edited && k != "" then SaveMarker(k, now) else markers[k]
  }

  /** Saving one more edit copy changes only that key's note. */
  lemma NotesSavedStep(notes: map<string, Note>, editNotes: map<string, Note>, serverTime: Number, edited: set<string>, key: string)
    requires edited <= editNotes.Keys && key in editNotes && key !in edited
    ensures NotesSaved(notes, editNotes, serverTime, edited + {key}) ==
      NotesSaved(notes, editNotes, serverTime, edited)[key := Stamped(editNotes[key], serverTime)]
  {
    var a := NotesSaved(notes, editNotes, serverTime, edited + {key});
    var b := NotesSaved(notes, editNotes, serverTime, edited)[key := Stamped(editNotes[key], serverTime)];
    assert a.Keys == b.Keys;
    assert forall k | k in a :: a[k] == b[k];
  }

  /** Saving one more edit copy changes only that key's edit copy. */
  lemma EditsSavedStep(editNotes: map<string, Note>, serverTime: Number, edited: set<string>, key: string)
    requires key in editNotes && key !in edited
    ensures EditsSaved(editNotes, serverTime, edited + {key}) ==
      EditsSaved(editNotes, serverTime, edited)[key := Stamped(editNotes[key], serverTime)]
  {
    var a := EditsSaved(editNotes, serverTime, edited + {key});
    var b := EditsSaved(editNotes, serverTime, edited)[key := Stamped(editNotes[key], serverTime)];
    assert a.Keys == b.Keys;
    assert forall k | k in a :: a[k] == b[k];
  }

  /** Saving one more edit copy changes only that key's stored item. */
  lemma StorageSavedStep(storage: map<string, Value>, editNotes: map<string, Note>, serverTime: Number, edited: set<string>, key: string)
    requires edited <= editNotes.Keys && key in editNotes && key !in edited
    ensures StorageSaved(storage, editNotes, serverTime, edited + {key}) ==
      StorageSaved(storage, editNotes, serverTime, edited)[key := Image(Stamped(editNotes[key], serverTime))]
  {
    var a := StorageSaved(storage, editNotes, serverTime, edited + {key});
    var b := StorageSaved(storage, editNotes, serverTime, edited)[key := Image(Stamped(editNotes[key], serverTime))];
    assert a.Keys == b.Keys;
    assert forall k | k in a :: a[k] == b[k];
  }

  /** Saving one more note records its marker, unless its key is empty. */
  lemma MarkersSavedStep(markers: map<string, CD.Change>, now: int, edited: set<string>, key: string)
    requires key !in edited
    ensures key != "" ==> MarkersSaved(markers, now, edited + {key}) == MarkersSaved(markers, now, edited)[key := SaveMarker(key, now)]
    ensures key == "" ==> MarkersSaved(markers, now, edited + {key}) == MarkersSaved(markers, now, edited)
  {
    var a := MarkersSaved(markers, now, edited + {key});
    var b := MarkersSaved(markers, now, edited);
    if key != "" {
      var b := b[key := SaveMarker(key, now)];
      assert a.Keys == b.Keys;
      assert forall k | k in a :: a[k] == b[k];
    } else {
      assert a.Keys == b.Keys;
      assert forall k | k in a :: a[k] == b[k];
    }
  }

  /** Before a key is checked, its note and edit copy are the original ones. */
  lemma SavedUntouched(notes: map<string, Note>, editNotes: map<string, Note>, serverTime: Number, edited: set<string>, key: string)
    requires edited <= editNotes.Keys && key in editNotes && key !in edited
    ensures var n := NotesSaved(notes, editNotes, serverTime, edited);
      (key in n <==> key in notes) && (key in notes ==> n[key] == notes[key])
    ensures var e := EditsSaved(editNotes, serverTime, edited);
      key in e && e[key] == editNotes[key]
  {
  }

  lemma SavedNone(storage: map<string, Value>, markers: map<string, CD.Change>, notes: map<string, Note>, editNotes: map<string, Note>, serverTime: Number, now: int)
    ensures NotesSaved(notes, editNotes, serverTime, {}) == notes
    ensures EditsSaved(editNotes, serverTime, {}) == editNotes
    ensures StorageSaved(storage, editNotes, serverTime, {}) == storage
    ensures MarkersSaved(markers, now, {}) == markers
  {
  }

  /** Checking one more key adds it to the edited keys exactly when it was edited. */
  lemma EditedStep(notes: map<string, Note>, editNotes: map<string, Note>, todo: set<string>, key: string)
    requires key in todo
    ensures Edited(notes, editNotes, key) ==>
      EditedKeys(notes, editNotes, editNotes.Keys - (todo - {key})) == EditedKeys(notes, editNotes, editNotes.Keys - todo) + {key}
    ensures !Edited(notes, editNotes, key) ==>
      EditedKeys(notes, editNotes, editNotes.Keys - (todo - {key})) == EditedKeys(notes, editNotes, editNotes.Keys - todo)
  {
    var done := editNotes.Keys - todo;
    if key in editNotes {
      assert editNotes.Keys - (todo - {key}) == done + {key};
    } else {
      assert editNotes.Keys - (todo - {key}) == done;
    }
  }

  lemma UpdateOver<K, V>(m: map<K, V>, a: K, x: V, y: V)
    ensures m[a := x][a := y] == m[a := y]
  {
  }

  lemma UpdateOver2<K, V>(m: map<K, V>, a: K, b: K, x: V, y: V, x2: V, y2: V)
    requires a != b
    ensures m[a := x][b := y][a := x2][b := y2] == m[a := x2][b := y2]
  {
  }

  /** One pass of the loop of `updateContent`: compare the clone of the edit copy of `key` with
    * its stored note and, when they differ, save the clone stamped with the server time, write it
    * to storage and record a save marker. */
  method SaveOne(notes: map<string, Note>, editNotes: map<string, Note>, storage: map<string, Value>, key: string,
                 serverTime: Number, now: int, changes: CS.ChangesStore)
    returns (notes': map<string, Note>, editNotes': map<string, Note>, storage': map<string, Value>, saved: bool)
    requires key in editNotes && WellFormed(editNotes[key]) && IsWhole(serverTime) && changes.Valid()
    modifies changes
    ensures saved <==> Edited(notes, editNotes, key)
    ensures changes.Valid() && changes.lastSendingSuccess == old(changes.lastSendingSuccess)
    ensures !saved ==>
      notes' == notes && editNotes' == editNotes && storage' == storage &&
      changes.changes == old(changes.changes) && changes.storage == old(changes.storage) && changes.lastSave == old(changes.lastSave)
    ensures saved ==>
      var stamped := Stamped(editNotes[key], serverTime);
      notes' == notes[key := stamped] && storage' == storage[key := Image(stamped)] && editNotes' == editNotes[key := stamped]
    ensures saved && key == "" ==>
      changes.changes == old(changes.changes) && changes.storage == old(changes.storage) && changes.lastSave == old(changes.lastSave)
    ensures saved && key != "" ==>
      changes.changes == old(changes.changes)[CD.TYPE_NOTES := old(changes.changes)[CD.TYPE_NOTES][key := SaveMarker(key, now)]] &&
      changes.storage == old(changes.storage)[CD.TYPE_NOTES := CS.Snapshot(changes.changes[CD.TYPE_NOTES])]["lastSave" := Int(now)] &&
      changes.lastSave == Finite(now as real)
  {
    notes', editNotes', storage' := notes, editNotes, storage;
    var cloned := editNotes[key].GetClone();
    CloneIsCopy(editNotes[key]);
    saved := !cloned.IsEqual(StoredNote(notes, key));
    if saved {
      StampedIsClone(editNotes[key], serverTime);
      cloned := cloned.(last_change := Some(serverTime));
      editNotes' := editNotes[key := editNotes[key].SetData(cloned.GetData())];
      notes' := notes[key := cloned];
      storage' := storage[key := Image(cloned)];
      SaveMarkerShape(key, now);
      changes.SetChange(CD.New(SaveMarkerData(key), now), now);
    }
  }

  /** The three maps `updateContent` saves into: the notes, their edit copies and the storage. */
  datatype Copies = Copies(notes: map<string, Note>, editNotes: map<string, Note>, storage: map<string, Value>)

  /** The part of the changes store a save touches: the markers, the storage and `lastSave`. */
  datatype Outbox = Outbox(changes: map<string, map<string, CD.Change>>, storage: map<string, Value>, lastSave: Number)

  /** The loop of `updateContent` has checked every key of the edit copies but `todo`: the keys
    * found edited among them are `edited`, and each of those is saved in `cur` and in `box`. */
  ghost predicate Progress(start: Copies, serverTime: Number, now: int, box0: Outbox, todo: set<string>, edited: set<string>, cur: Copies, box: Outbox)
  {
    CopiesSaved(start, serverTime, todo, edited, cur) && BoxSaved(box0, now, edited, box)
  }

  /** The notes, edit copies and storage once the keys of `edited`, the edited keys outside `todo`, are saved. */
  ghost predicate CopiesSaved(start: Copies, serverTime: Number, todo: set<string>, edited: set<string>, cur: Copies)
  {
    var editNotes := start.editNotes;
    todo <= editNotes.Keys &&
    edited == EditedKeys(start.notes, editNotes, editNotes.Keys - todo) &&
    cur.notes == NotesSaved(start.notes, editNotes, serverTime, edited) &&
    cur.editNotes == EditsSaved(editNotes, serverTime, edited) &&
    cur.storage == StorageSaved(start.storage, editNotes, serverTime, edited)
  }

  /** The changes store once a save marker is recorded for each key of `edited`. */
  predicate BoxSaved(box0: Outbox, now: int, edited: set<string>, box: Outbox)
  {
    CD.TYPE_NOTES in box0.changes &&
    box.changes == box0.changes[CD.TYPE_NOTES := MarkersSaved(box0.changes[CD.TYPE_NOTES], now, edited)] &&
    (edited - {""} != {} ==>
      box.lastSave == Finite(now as real) &&
      box.storage == box0.storage[CD.TYPE_NOTES := CS.Snapshot(box.changes[CD.TYPE_NOTES])]["lastSave" := Int(now)]) &&
    (edited - {""} == {} ==> box.lastSave == box0.lastSave && box.storage == box0.storage)
  }

  /** The state of a changes store as an `Outbox`. */
  function BoxOf(changes: CS.ChangesStore): Outbox
    reads changes
  {
    Outbox(changes.changes, changes.storage, changes.lastSave)
  }

  /** Nothing is checked yet. */
  lemma ProgressStart(start: Copies, serverTime: Number, now: int, box0: Outbox)
    requires CD.TYPE_NOTES in box0.changes
    ensures Progress(start, serverTime, now, box0, start.editNotes.Keys, {}, start, box0)
  {
    SavedNone(start.storage, box0.changes[CD.TYPE_NOTES], start.notes, start.editNotes, serverTime, now);
    assert start.editNotes.Keys - start.editNotes.Keys == {};
    assert box0.changes[CD.TYPE_NOTES := box0.changes[CD.TYPE_NOTES]] == box0.changes;
  }

  /** Checking the key `key` with `SaveOne` keeps the saved copies. */
  lemma CopiesStep(start: Copies, serverTime: Number, todo: set<string>, edited: set<string>,
                   cur: Copies, key: string, saved: bool, next: Copies)
    requires CopiesSaved(start, serverTime, todo, edited, cur) && key in todo
    requires saved <==> Edited(cur.notes, cur.editNotes, key)
    requires !saved ==> next == cur
    requires saved ==>
      var stamped := Stamped(cur.editNotes[key], serverTime);
      next == Copies(cur.notes[key := stamped], cur.editNotes[key := stamped], cur.storage[key := Image(stamped)])
    ensures CopiesSaved(start, serverTime, todo - {key}, if saved then edited + {key} else edited, next)
  {
    var editNotes := start.editNotes;
    SavedUntouched(start.notes, editNotes, serverTime, edited, key);
    EditedStep(start.notes, editNotes, todo, key);
    if saved {
      NotesSavedStep(start.notes, editNotes, serverTime, edited, key);
      EditsSavedStep(editNotes, serverTime, edited, key);
      StorageSavedStep(start.storage, editNotes, serverTime, edited, key);
    }
  }

  /** Recording the marker of a saved key keeps the outbox. */
  lemma BoxStep(box0: Outbox, now: int, edited: set<string>, box: Outbox, key: string, box': Outbox)
    requires BoxSaved(box0, now, edited, box) && key !in edited
    requires key == "" ==> box' == box
    requires key != "" ==>
      box'.changes == box.changes[CD.TYPE_NOTES := box.changes[CD.TYPE_NOTES][key := SaveMarker(key, now)]] &&
      box'.storage == box.storage[CD.TYPE_NOTES := CS.Snapshot(box'.changes[CD.TYPE_NOTES])]["lastSave" := Int(now)] &&
      box'.lastSave == Finite(now as real)
    ensures BoxSaved(box0, now, edited + {key}, box')
  {
    MarkersSavedStep(box0.changes[CD.TYPE_NOTES], now, edited, key);
    if key == "" {
      assert (edited + {key}) - {""} == edited - {""};
    } else {
      assert key in (edited + {key}) - {""};
      UpdateOver(box0.changes, CD.TYPE_NOTES, box.changes[CD.TYPE_NOTES], box.changes[CD.TYPE_NOTES][key := SaveMarker(key, now)]);
      if edited - {""} != {} {
        UpdateOver2(box0.storage, CD.TYPE_NOTES, "lastSave",
          CS.Snapshot(box.changes[CD.TYPE_NOTES]), Int(now), CS.Snapshot(box'.changes[CD.TYPE_NOTES]), Int(now));
      }
    }
  }

  /** Once every key is checked, the edited keys are all those of the edit copies that differ from
    * their notes, and every note still has its edit copy, all well formed. */
  lemma ProgressDone(start: Copies, serverTime: Number, now: int, box0: Outbox, edited: set<string>, cur: Copies, box: Outbox)
    requires Progress(start, serverTime, now, box0, {}, edited, cur, box)
    requires start.editNotes.Keys == start.notes.Keys && AllWellFormed(start.notes) && AllWellFormed(start.editNotes)
    requires IsWhole(serverTime)
    ensures edited == EditedKeys(start.notes, start.editNotes, start.editNotes.Keys)
    ensures cur.editNotes.Keys == cur.notes.Keys && AllWellFormed(cur.notes) && AllWellFormed(cur.editNotes)
  {
    assert start.editNotes.Keys - {} == start.editNotes.Keys;
    forall k | k in edited
      ensures WellFormed(Stamped(start.editNotes[k], serverTime))
    {
      StampedIsClone(start.editNotes[k], serverTime);
    }
  }

  /** A second check right after a save finds nothing to save, provided the server time and the
    * saved edit copies carry no NaN (a NaN number is unequal to itself under `===`). */
  lemma SaveIsIdempotent(start: Copies, serverTime: Number, now: int, box0: Outbox, edited: set<string>, cur: Copies, box: Outbox)
    requires Progress(start, serverTime, now, box0, {}, edited, cur, box)
    requires serverTime.Finite? && forall k :: k in start.editNotes ==> !start.editNotes[k].note_no.NaN?
    ensures EditedKeys(cur.notes, cur.editNotes, cur.editNotes.Keys) == {}
  {
    var editNotes := start.editNotes;
    assert editNotes.Keys - {} == editNotes.Keys;
    forall k | k in cur.editNotes
      ensures !Edited(cur.notes, cur.editNotes, k)
    {
      if k in edited {
        IsEqualIffSame(Stamped(editNotes[k], serverTime), Stamped(editNotes[k], serverTime));
      } else {
        assert !Edited(start.notes, editNotes, k);
      }
    }
  }

  /** The loop of `updateContent` over the edit copies. */
  method SaveEdits(notes: map<string, Note>, editNotes: map<string, Note>, storage: map<string, Value>,
                   serverTime: Number, now: int, changes: CS.ChangesStore)
    returns (notes': map<string, Note>, editNotes': map<string, Note>, storage': map<string, Value>, ghost edited: set<string>)
    requires AllWellFormed(editNotes) && IsWhole(serverTime) && changes.Valid()
    modifies changes
    ensures changes.Valid() && changes.lastSendingSuccess == old(changes.lastSendingSuccess)
    ensures Progress(Copies(notes, editNotes, storage), serverTime, now, old(BoxOf(changes)), {}, edited,
                     Copies(notes', editNotes', storage'), BoxOf(changes))
  {
    ghost var start := Copies(notes, editNotes, storage);
    ghost var box0 := BoxOf(changes);
    ProgressStart(start, serverTime, now, box0);
    notes', editNotes', storage' := notes, editNotes, storage;
    var todo := editNotes.Keys;
    edited := {};
    while todo != {}
      invariant changes.Valid() && changes.lastSendingSuccess == old(changes.lastSendingSuccess)
      invariant Progress(start, serverTime, now, box0, todo, edited, Copies(notes', editNotes', storage'), BoxOf(changes))
      decreases |todo|
    {
      var key :| key in todo;
      ghost var cur := Copies(notes', editNotes', storage');
      ghost var box := BoxOf(changes);
      SavedUntouched(notes, editNotes, serverTime, edited, key);
      var saved;
      notes', editNotes', storage', saved := SaveOne(notes', editNotes', storage', key, serverTime, now, changes);
      CopiesStep(start, serverTime, todo, edited, cur, key, saved, Copies(notes', editNotes', storage'));
      if saved {
        BoxStep(box0, now, edited, box, key, BoxOf(changes));
        edited := edited + {key};
      }
      todo := todo - {key};
    }
  }

  // ---------------------------------------------------------------------
  // The store

  /** Where a call of `updateContent` stops. */
  datatype Gate = TooSoon | Locked | AfterWritingEnd | Proceed

  /** The three early returns of `updateContent`, in order: within the check interval, while
    * another update holds the lock (both unless forced), and after the writing end. */
  function UpdateGate(lastCheck: int, lock: int, now: int, force: bool, writingEndReached: bool): (g: Gate)
    ensures g == TooSoon <==> now - lastCheck < CHECK_INTERVAL && !force
    ensures g == Locked <==> now - lastCheck >= CHECK_INTERVAL && lock != 0 && !force
    ensures g == AfterWritingEnd <==> (force || (now - lastCheck >= CHECK_INTERVAL && lock == 0)) && writingEndReached
    ensures g == Proceed <==> (force || (now - lastCheck >= CHECK_INTERVAL && lock == 0)) && !writingEndReached
  {
    if now - lastCheck < CHECK_INTERVAL && !force then TooSoon
    else if lock != 0 && !force then Locked
    else if writingEndReached then AfterWritingEnd
    else Proceed
  }

  class NotesStore {
    /** The note keys, indexed by note number. */
    var keys: seq<string>
    var notes: map<string, Note>
    /** The notes bound to the editor. */
    var editNotes: map<string, Note>
    /** Client time (ms) of the last check for edits. */
    var lastCheck: int
    var activeKey: Option<string>
    /** The module-level `lockUpdate` counter, which `$reset` does not touch. */
    var lockUpdate: int
    /** The "writer-notes" storage instance. */
    var storage: map<string, Value>

    /** Every note has its edit copy, and every edit copy its note; all are built from data. */
    predicate Valid()
      reads this
    {
      editNotes.Keys == notes.Keys && AllWellFormed(notes) && AllWellFormed(editNotes)
    }

    /** The start state next to whatever the storage already holds. */
    constructor(stored: map<string, Value>)
      ensures Valid()
      ensures keys == [] && notes == map[] && editNotes == map[] && lastCheck == 0 && activeKey == None
      ensures lockUpdate == 0 && storage == stored
    {
      keys, notes, editNotes, lastCheck, activeKey := [], map[], map[], 0, None;
      lockUpdate := 0;
      storage := stored;
    }

    method ClearStorage()
      modifies this
      ensures Valid()
      ensures storage == map[] && lockUpdate == old(lockUpdate)
      ensures keys == [] && notes == map[] && editNotes == map[] && lastCheck == 0 && activeKey == None
    {
      storage := map[];
      keys, notes, editNotes, lastCheck, activeKey := [], map[], map[], 0, None;
    }

    /** Reset, then load the notes the stored index names, each with an edit copy equal to it. */
    method LoadFromStorage()
      modifies this
      ensures Valid()
      ensures storage == old(storage) && lockUpdate == old(lockUpdate)
      ensures keys == StoredKeys(storage)
      ensures notes == ReadNotes(storage, keys) && editNotes == notes
      ensures lastCheck == 0 && activeKey == None
    {
      keys, notes, editNotes, lastCheck, activeKey := [], map[], map[], 0, None;
      if "keys" in storage {
        keys := IndexKeys(storage["keys"]);
      }
      notes, editNotes := ReadStoredNotes(storage, keys);
    }

    /** Replace everything by the backend's notes, in data order, and persist them. A null
      * element throws and ends the loop, and data that is not iterable throws before it; the
      * error is caught, the notes made so far stay, without an index, and the update lock is
      * released either way. */
    method LoadFromData(data: Value)
      modifies this
      ensures Valid()
      ensures keys == KeysOf(DataNotes(RecordData(data)))
      ensures notes == ByKey(DataNotes(RecordData(data))) && editNotes == notes
      ensures storage == if IteratesFully(data) then Written(DataNotes(RecordData(data)))["keys" := Index(keys)]
                         else Written(DataNotes(RecordData(data)))
      ensures lastCheck == 0 && activeKey == None && lockUpdate == 0
    {
      storage := map[];
      keys, notes, editNotes, lastCheck, activeKey := [], map[], map[], 0, None;
      var items := RecordData(data);
      var written;
      keys, notes, editNotes, written := FileNotes(items);
      ByKeyWellFormed(items);
      storage := written;
      if IteratesFully(data) {
        storage := storage["keys" := Index(keys)];
      }
      lockUpdate := 0;
    }

    /** Make sure the notice boards numbered below `count` exist (`BoardCount`), list exactly
      * their keys, and make the first board active unless another one already is. */
    method PrepareNotes(count: Value) returns (ghost added: map<string, Note>)
      requires Valid()
      modifies this
      ensures Valid()
      ensures keys == BoardKeys(BoardCount(count))
      ensures forall k :: k in added <==> k in BoardSet(BoardCount(count)) && k !in old(notes)
      ensures forall k :: k in added ==> BlankFor(k, added[k])
      ensures notes == old(notes) + added && editNotes == old(editNotes) + added
      ensures storage == (old(storage) + Images(added))["keys" := Index(keys)]
      ensures activeKey == if BoardBelow(0, count) && !(old(activeKey).Some? && old(activeKey).value in BoardSet(BoardCount(count))) then Some(KeyForNo(Int(0))) else old(activeKey)
      ensures lastCheck == old(lastCheck) && lockUpdate == old(lockUpdate)
    {
      var n := BoardCount(count);
      var valid;
      notes, editNotes, storage, valid, added := FillBoards(notes, editNotes, storage, n, activeKey);
      BlanksKeepCopies(old(notes), old(editNotes), added);
      keys := BoardKeys(n);
      storage := storage["keys" := Index(keys)];
      if BoardBelow(0, count) && !valid {
        activeKey := Some(KeyForNo(Int(0)));
      }
    }

    /** The periodic check: save every edit copy that differs from its stored note, stamped with
      * the server time, and record a save marker for it. */
    method UpdateContent(force: bool, now: int, writingEndReached: bool, timeOffset: Number, changes: CS.ChangesStore)
      requires Valid() && changes.Valid()
      modifies this, changes
      ensures Valid() && changes.Valid()
      ensures keys == old(keys) && activeKey == old(activeKey)
      ensures changes.lastSendingSuccess == old(changes.lastSendingSuccess)
      ensures var g := UpdateGate(old(lastCheck), old(lockUpdate), now, force, writingEndReached);
        (g == TooSoon ==> lockUpdate == old(lockUpdate)) &&
        (g == Locked || g == AfterWritingEnd ==> lockUpdate == old(lockUpdate) + 1) &&
        (g == Proceed ==> lockUpdate == 0) &&
        (g != Proceed ==>
          notes == old(notes) && editNotes == old(editNotes) && storage == old(storage) && lastCheck == old(lastCheck) &&
          changes.changes == old(changes.changes) && changes.storage == old(changes.storage) && changes.lastSave == old(changes.lastSave))
      ensures var g := UpdateGate(old(lastCheck), old(lockUpdate), now, force, writingEndReached);
        g == Proceed ==>
          lastCheck == (if old(editNotes) == map[] then old(lastCheck) else now) &&
          Progress(Copies(old(notes), old(editNotes), old(storage)), ServerTime(Finite(now as real), timeOffset), now, old(BoxOf(changes)),
                   {}, EditedKeys(old(notes), old(editNotes), old(editNotes).Keys), Copies(notes, editNotes, storage), BoxOf(changes))
    {
      var currentTime := now;
      if currentTime - lastCheck < CHECK_INTERVAL && !force {
        return;
      }
      var held := lockUpdate;
      lockUpdate := lockUpdate + 1;
      if held != 0 && !force {
        return;
      }
      if writingEndReached {
        return;
      }
      SaveAll(now, timeOffset, changes);
    }

    /** The part of `updateContent` past its early returns. */
    method SaveAll(now: int, timeOffset: Number, changes: CS.ChangesStore)
      requires Valid() && changes.Valid()
      modifies this, changes
      ensures Valid() && changes.Valid()
      ensures keys == old(keys) && activeKey == old(activeKey) && lockUpdate == 0
      ensures changes.lastSendingSuccess == old(changes.lastSendingSuccess)
      ensures lastCheck == (if old(editNotes) == map[] then old(lastCheck) else now)
      ensures Progress(Copies(old(notes), old(editNotes), old(storage)), ServerTime(Finite(now as real), timeOffset), now, old(BoxOf(changes)),
                       {}, EditedKeys(old(notes), old(editNotes), old(editNotes).Keys), Copies(notes, editNotes, storage), BoxOf(changes))
    {
      var serverTime := ServerTime(Finite(now as real), timeOffset);
      var check := if editNotes != map[] then now else lastCheck;
      ghost var start := Copies(notes, editNotes, storage);
      var n, e, s, edited := SaveEdits(notes, editNotes, storage, serverTime, now, changes);
      ProgressDone(start, serverTime, now, old(BoxOf(changes)), edited, Copies(n, e, s), BoxOf(changes));
      notes, editNotes, storage, lastCheck, lockUpdate := n, e, s, check, 0;
    }

    /** The send data of every notes marker due at `sendingTime`, each with the stored note as
      * payload when there is one. */
    method GetChangedData(sendingTime: int, changes: CS.ChangesStore, timeOffset: Number) returns (r: seq<map<string, Value>>, ghost markerKeys: seq<string>)
      requires changes.Valid()
      ensures |r| == |markerKeys| && NoDuplicates(markerKeys)
      ensures forall k :: k in markerKeys <==>
        k in changes.MarkersOf(CD.TYPE_NOTES) && CS.Due(changes.MarkersOf(CD.TYPE_NOTES)[k], sendingTime)
      ensures forall i :: 0 <= i < |r| ==>
        var c := changes.MarkersOf(CD.TYPE_NOTES)[markerKeys[i]];
        r[i] == ChangeDataToSend(c, Payload(storage, c), timeOffset)
    {
      var markers;
      markers, markerKeys := changes.GetChangesFor(CD.TYPE_NOTES, sendingTime);
      r := [];
      for i := 0 to |markers|
        invariant |r| == i
        invariant forall j :: 0 <= j < i ==> r[j] == ChangeDataToSend(markers[j], Payload(storage, markers[j]), timeOffset)
      {
        var change := markers[i];
        var key := ToStr(change.key);
        if key in storage {
          r := r + [ChangeDataToSend(change, storage[key], timeOffset)];
        } else {
          r := r + [ChangeDataToSend(change, Undefined, timeOffset)];
        }
      }
    }
  }

  /** The payload sent with a marker: the stored item under its key, if any. */
  function Payload(storage: map<string, Value>, c: CD.Change): Value
  {
    if ToStr(c.key) in storage then storage[ToStr(c.key)] else Undefined
  }
}
