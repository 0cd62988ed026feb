# Long essay writer: offline change tracking and synchronisation

This project models, in Dafny, the part of the EDUTIEK long essay assessment
writer that keeps an exam writer's work safe while the connection to the
backend comes and goes.

- **Change markers.** Every edit of a note, a preference, an annotation or a
  writing step is recorded locally as a change marker. The marker holds an
  action, a data type, a key and the time of the last change. The changes
  store keeps the markers per type, mirrored in local storage, and answers
  which markers are still to be sent.
- **Stores.** The notes, preferences, annotations, resources, task, alerts,
  layout, settings and clipboard stores each keep their state in memory and
  in local storage. Each can reload what it saved and clear it again.
- **The api store.** It decides at start-up whether to carry on with the
  locally stored data or to load afresh from the backend. It reads and
  writes the authentication tokens and the server time offset. It guards the
  periodic sending of the change markers, so that only one request runs at a
  time, and it applies the backend's answer to the markers it sent. It logs
  out, and it performs the final submission of an essay.
- **The PDF bridge.** It keeps one action queue per annotation entry, so
  that the viewer's create, update and delete calls settle one after
  another. It compares annotation states with a structural diff.
- **The text marker.** It turns the highlighted words of the essay into
  paragraph and word positions.

Each record (a change marker, note, writing step, sending result,
annotation or resource) is a datatype with `SetData`/`GetData`. Each store
is a class whose fields are the store's state and whose `storage` map is
its part of local storage. An asynchronous request is a pair of methods: one
starts the request, the other applies its answer. JavaScript values (strings,
numbers, `null`, `undefined`, objects, arrays) are modelled by the `Js`
module, together with `parseInt`, truthiness, `String(...)` and a JSON write
and read.

## Model

| member | source | states |
|---|---|---|
| Js.Iterated | src/store/notes.js:111 | `for…of` visits an array's elements and a string's characters, and nothing else is iterable |
| Js.FirstNull | src/store/notes.js:111-112 | the loop building a record from each element passes every element before the position found, which is the first null one or the end |
| Js.RecordData | src/store/notes.js:111-112 | the records built are one per element visited before the loop ends or throws, each from that element's properties, and none for data that is not iterable |
| Js.FirstNullOfNonNull | src/store/notes.js:111-112 | the loop runs to its end exactly when no element is null |
| Js.ObjectArrayIterates | src/store/annotations.js:109-115 | an array of objects, the form the backend sends its lists in, is visited to its end, each record taking its object's properties |
| Js.StopsAtNull | src/store/resources.js:113-114 | a null element stops the loop before it, and a value that is neither an array nor a string gives no record |
| ChangeData.Change.SetData | src/data/Change.js:60-73 | an action or type is taken over exactly when the data gives a string among the allowed names, so only an allowed name ever replaces it; a key given neither undefined nor null is taken over as a string and a time as a parsed integer; every other property keeps its value |
| ChangeData.New | src/data/Change.js:48-54 | the constructor applies the data, then stamps the client time `now` exactly when the parsed time is still 0; the marker it builds is well formed |
| ChangeData.NewIsValid | src/data/Change.js:93-99 | a marker built from data is valid exactly when the data names an allowed type, an allowed action and a key whose string form is not empty |
| ChangeData.RoundTrip | src/data/Change.js:80-87 | `new Change(c.getData())` is `c` again for a well-formed marker whose time is not 0 |
| ChangeData.PersistedRoundTrip | src/data/Change.js:80-87 | a marker written as JSON and read back into `new Change` is unchanged when its time is a non-zero number |
| ChangeData.PersistedNaNRestamped | src/data/Change.js:48-54 | a marker whose time is NaN is read back from JSON (which writes null) stamped with the clock |
| NoteData.Note.SetData | src/data/Note.js:42-52 | each property given neither undefined nor null is taken over, the number and the time parsed as integers and the text as a string, so a given time is always set; every other property keeps its value |
| NoteData.NewWellFormed | src/data/Note.js:30-32 | a note built from data carries whole numbers (or NaN) only |
| NoteData.CloneIsCopy | src/data/Note.js:79-81 | the clone of a well-formed note has its properties |
| NoteData.IsEqualIffSame | src/data/Note.js:87-94 | without NaN, `isEqual` holds exactly between notes with the same three properties |
| NoteData.CloneIsEqual | src/data/Note.js:79-94 | a clone is `isEqual` to its original exactly when no number of the note is NaN |
| NoteData.KeyForNoInjective | src/data/Note.js:34-36 | different note numbers give different `NOTE_` keys |
| NoteData.PersistedRoundTrip | src/data/Note.js:58-64 | a note without NaN written as JSON and read back into `new Note` is unchanged |
| ApiTime.NumberFloor | src/store/api.js:124 | `Math.floor` gives the integer at or just below its argument, and NaN for NaN |
| ApiTime.ServerTime | src/store/api.js:116-126 | 0 maps to 0, any other client time to the floor of `(t - timeOffset) / 1000`, NaN inputs to NaN; the result is whole |
| ApiTime.ServerTimeOfHeaderInstant | src/store/api.js:525-533 | with the offset taken from a server time header at client time `now`, the server time of `now` is the header's time |
| ApiTime.ServerTimeMonotone | src/store/api.js:116-126 | server time does not decrease as client time grows |
| ApiTime.ChangeDataToSend | src/store/api.js:130-146 | the marker's own data, plus `server_time` of its time, plus `payload` exactly when the payload is truthy, and no other property |
| ChangesStore.PlainData | src/store/changes.js:150-154 | the plain object built in `saveChangesOfTypeToStorage` maps exactly the type's keys to their markers' `getData()` |
| ChangesStore.LoadMarkers | src/store/changes.js:127-129 | a stored object is read back as one `new Change` per entry, under the same key, an undefined entry standing for `{}`; the load throws exactly when some entry is null, and then the markers made are a part of those |
| ChangesStore.ReadStoredState | src/store/changes.js:119-132 | when no stored type holds a null entry, the start state with the stored markers of every allowed type, an empty map for a type whose stored value is missing or no object; otherwise the loop throws at the first such type, after the types before it and a part of that type's markers |
| ChangesStore.Merge | src/store/changes.js:141 | the `$patch` keeps exactly the types of the present state |
| ChangesStore.ChangesStore.constructor | src/store/changes.js:11-21 | the start state: an empty map for each allowed type and both timestamps 0 |
| ChangesStore.ChangesStore.CountChanges | src/store/changes.js:45-51 | the count is the sum of the sizes of the notes and preferences maps |
| ChangesStore.ChangesStore.GetCountOfChangesFor | src/store/changes.js:53-68 | 0 for a type that is not allowed, otherwise the number of that type's markers |
| ChangesStore.ChangesStore.GetChangesFor | src/store/changes.js:70-93 | exactly the markers of the type whose time is at most `maxTime` (all when `maxTime` is 0), each once; none for a type that is not allowed |
| ChangesStore.ChangesStore.ClearStorage | src/store/changes.js:102-111 | the storage is empty and the state is the start state |
| ChangesStore.ChangesStore.LoadFromStorage | src/store/changes.js:118-142 | the markers read are added over the present ones per type and the storage is untouched; without a throw they are all stored markers and the timestamps are read, after a throw only those of the types read before it and a part of the failing type's, and the timestamps are not read; either way the patch with the start state resets both timestamps to 0 |
| ChangesStore.ChangesStore.ReadStoredTimes | src/store/changes.js:133-134 | both timestamps are `parseInt` of their stored items, NaN when missing |
| ChangesStore.ChangesStore.SaveChangesOfTypeToStorage | src/store/changes.js:149-158 | the type's item becomes the JSON image of its markers and `lastSave` the clock, in state and storage; markers untouched |
| ChangesStore.ChangesStore.HasChangesInStorage | src/store/changes.js:164-175 | the loop arrives at the verdict `StoredVerdict` defines type by type: true as soon as a type's stored value has a property, false when none has, a throw where `Object.keys` meets a stored null |
| ChangesStore.ChangesStore.SetChange | src/store/changes.js:184-189 | a valid marker is filed under its type and key, replacing any earlier one, and its type is saved; an invalid one changes nothing |
| ChangesStore.ChangesStore.UnsetChange | src/store/changes.js:195-200 | a valid marker's type and key are removed and the type saved; an invalid one changes nothing |
| ChangesStore.ChangesStore.SetChangesSent | src/store/changes.js:212-238 | the markers become the answer applied entry by entry; the type is saved exactly when an entry touched a marker; `lastSendingSuccess` always becomes the clock |
| ChangesStore.StoredVerdictAppend | src/store/changes.js:165-173 | looking at one more type keeps an earlier verdict and otherwise decides on that type's stored value |
| ChangesStore.StoredNotesVerdict | src/store/changes.js:165-173 | a stored item is tested as the raw string, so a stored `"null"` passes the test and throws at `Object.keys`, and a stored object with a property gives true |
| ChangesStore.SnapshotTakesEveryEntry | src/store/changes.js:127-154 | the item `saveChangesOfTypeToStorage` writes has no null entry, so reading it back never throws |
| ChangesStore.AcknowledgeDropsSent | src/store/changes.js:221-224 | a marker not newer than the sending is deleted whatever its new key, and nothing else changes |
| ChangesStore.AcknowledgeMovesNewer | src/store/changes.js:225-229 | a newer marker whose key changed (or became null) leaves its old key and is filed under the new key's string with `key` set to the new key |
| ChangesStore.MapRemoveSize | src/store/changes.js:223 | deleting a property shrinks a map by one exactly when it was there |
| ChangesStore.MapUpdateSize | src/store/changes.js:227 | filing under a key grows a map by one exactly when the key was new |
| ChangesStore.AcknowledgeAllShrinks | src/store/changes.js:217-232 | applying an answer never increases the number of markers |
| ChangesStore.AcknowledgeAllLeavesOthers | src/store/changes.js:217-232 | a marker whose key the answer names neither as old nor as new key is kept unchanged |
| ChangesStore.IdentityAnswerRemovesExactlySent | src/store/changes.js:203-232 | when every answered key stays the same, exactly the answered markers not newer than the sending disappear |
| ChangesStore.ReloadRestoresMarkers | src/store/changes.js:118-158 | markers saved by `saveChangesOfTypeToStorage` are read back unchanged by `loadFromStorage` when each has a string key and a non-zero time |
| ChangesStore.WithChangeCount | src/store/changes.js:184-189 | recording a marker adds one to the count exactly when its type and key were not there yet |
| ChangesStore.WithChangeCoalesces | src/store/changes.js:178-189 | recording two markers of the same type and key keeps only the second |
| NotesStore.ImageIsJson | src/store/notes.js:117 | the storage item of a note is `JSON.stringify(note.getData())` read back |
| NotesStore.ReadNotesWellFormed | src/store/notes.js:82-92 | every note read from storage is filed under a key of the index and is well formed |
| NotesStore.ReadStoredNotes | src/store/notes.js:82-92 | the notes of the indexed entries that are objects, each with an edit copy equal to it |
| NotesStore.DataNotes | src/store/notes.js:111-112 | one `new Note(data)` per plain object, in data order |
| NotesStore.KeysOf | src/store/notes.js:116 | the keys list holds `getKey()` of each note, in order |
| NotesStore.FileNotes | src/store/notes.js:111-118 | the loop of `loadFromData` files each note by key with an equal edit copy, indexes its key and writes its image |
| NotesStore.WrittenMatchesByKey | src/store/notes.js:113-117 | each filed note's storage item is its image, and a note is filed exactly under the keys of the list |
| NotesStore.LoadedDataReloads | src/store/notes.js:72-123 | what `loadFromData` writes is read back by `loadFromStorage` as the same keys and notes, when no note carries NaN |
| NotesStore.NoteKeysAreNotIndex | src/store/notes.js:117-119 | no note is stored under the name `keys` of the index |
| NotesStore.ByKeyWellFormed | src/store/notes.js:111-114 | every note filed from data is well formed |
| NotesStore.ByKeyFromData | src/store/notes.js:111-114 | the notes filed from data have no NaN when the data gives none |
| NotesStore.ImageReadsBack | src/store/notes.js:84-87 | the image of a well-formed note without NaN is an object that `new Note` rebuilds it from |
| NotesStore.ReadBack | src/store/notes.js:82-92 | reading indexed entries that hold the images of some notes gives exactly those notes |
| NotesStore.BoardKeys | src/store/notes.js:138-143 | the keys of `n` boards are `NOTE_0` … `NOTE_{n-1}` in order, none for `n <= 0` |
| NotesStore.BoardCount | src/store/notes.js:141 | the loop visits the boards numbered below the count, the comparison converting the count to a number: it holds for each board visited and fails for the next |
| NotesStore.BoardsIffPositive | src/store/settings.js:37 | `hasNotes` holds exactly when `prepareNotes` creates a board for the same count |
| NotesStore.BoardCountOfInt | src/store/notes.js:141 | a whole count gives that many boards, a count of 0 or less none |
| NotesStore.BlankNote | src/store/notes.js:149 | `new Note({note_no: no})` has that number, an empty text, no time, and the key of its board |
| NotesStore.BoardSetOfKeys | src/store/notes.js:141-143 | the board keys are exactly the keys of the numbers below `n` |
| NotesStore.BoardSetStep | src/store/notes.js:141-143 | each board adds a key not among those of the lower boards |
| NotesStore.BlankForBoard | src/store/notes.js:148-150 | the blank note created for a board is the one its number gives |
| NotesStore.BlanksWellFormed | src/store/notes.js:148-151 | adding blank notes keeps every note well formed |
| NotesStore.ImagesUpdate | src/store/notes.js:153 | writing one more note adds exactly its image |
| NotesStore.FillBoards | src/store/notes.js:141-155 | exactly the boards without a note get a blank note with an equal edit copy and a storage item; the active key is valid exactly when it names a board |
| NotesStore.StampedIsClone | src/store/notes.js:195-204 | the saved note is the edit copy's clone with the server time, and copying its data back onto the edit copy gives the same note |
| NotesStore.SaveMarkerShape | src/store/notes.js:207-211 | the marker recorded is a `save` of type `notes` for that key at the time of the check, valid exactly when the key is not empty |
| NotesStore.EditedKeys | src/store/notes.js:191-198 | the edited keys are among the keys checked |
| NotesStore.NotesSavedStep | src/store/notes.js:204 | saving one more edit copy changes only that key's note |
| NotesStore.EditsSavedStep | src/store/notes.js:203 | saving one more edit copy changes only that key's edit copy |
| NotesStore.StorageSavedStep | src/store/notes.js:206 | saving one more edit copy changes only that key's storage item |
| NotesStore.MarkersSavedStep | src/store/notes.js:207-211 | saving one more note records its save marker, unless its key is empty |
| NotesStore.SavedUntouched | src/store/notes.js:191-225 | before a key is checked, its note and edit copy are the original ones |
| NotesStore.SavedNone | src/store/notes.js:191-225 | with nothing saved, notes, edit copies, storage and markers are as they were |
| NotesStore.EditedStep | src/store/notes.js:198 | checking one more key adds it to the edited keys exactly when its edit copy differs from its note |
| NotesStore.SaveOne | src/store/notes.js:192-221 | one pass of the loop: an edit copy that differs from its stored note is saved stamped with the server time in notes, edit copies and storage, with a save marker; an equal one changes nothing |
| NotesStore.ProgressStart | src/store/notes.js:191 | before the loop nothing is checked and nothing saved |
| NotesStore.CopiesStep | src/store/notes.js:191-225 | checking one key keeps the notes, edit copies and storage those of the edited keys saved |
| NotesStore.BoxStep | src/store/notes.js:207-211 | recording the marker of one saved key keeps the outbox that of the edited keys |
| NotesStore.ProgressDone | src/store/notes.js:191-225 | after the loop the saved keys are exactly the edited ones, and every note still has an edit copy |
| NotesStore.SaveIsIdempotent | src/store/notes.js:191-225 | a second check right after a save finds nothing to save, when no NaN is involved |
| NotesStore.SaveEdits | src/store/notes.js:191-225 | the loop over the edit copies saves exactly the edited ones |
| NotesStore.UpdateGate | src/store/notes.js:173-189 | `updateContent` stops within `checkInterval` unless forced, then while the lock is held unless forced, then after the writing end, and otherwise goes on |
| NotesStore.NotesStore.constructor | src/store/notes.js:20-32 | the start state with the lock at 0 |
| NotesStore.NotesStore.ClearStorage | src/store/notes.js:58-66 | the storage is empty and the state the start state; the module-level lock is untouched |
| NotesStore.NotesStore.LoadFromStorage | src/store/notes.js:72-97 | after a reset, the keys are the stored index and the notes those of its entries that are objects, each with an equal edit copy |
| NotesStore.NotesStore.LoadFromData | src/store/notes.js:106-127 | the notes are those of the elements before the first null one, where `new Note(null)` throws, none when the data is not an array or string; keys keep data order and each note has an equal edit copy; the storage holds exactly their images, and the index only when the loop ran to its end; the lock is 0 either way |
| NotesStore.NotesStore.PrepareNotes | src/store/notes.js:135-162 | the keys become those of the boards `no < notes_count` admits (`BoardCount`), in order, and are persisted; only missing boards get blank notes; the active key becomes `NOTE_0` exactly when `notes_count > 0` and it named no board |
| NotesStore.NotesStore.UpdateContent | src/store/notes.js:170-228 | an early return changes no note, storage or marker; the lock grows by one on the lock and writing-end returns and is 0 after a full pass; a full pass saves exactly the edited notes |
| NotesStore.NotesStore.SaveAll | src/store/notes.js:191-227 | the part past the early returns: every edited note saved, `lastCheck` set when there was an edit copy, the lock reset |
| NotesStore.NotesStore.GetChangedData | src/store/notes.js:237-250 | one send entry per notes marker due at the sending time, with the stored item as payload when there is one |
| PreferencesStore.AllDataOf | src/store/preferences.js:29-34 | `allData` has exactly `instructions_zoom` and `editor_zoom`, each the state's value |
| PreferencesStore.PatchKeys | src/store/preferences.js:53-72 | a `$patch` adds the patch's properties, takes their values unless an object is merged into an object, and keeps every other property |
| PreferencesStore.PatchWithOwnPart | src/store/preferences.js:53 | patching a state with a part of itself changes nothing |
| PreferencesStore.PatchIdempotent | src/store/preferences.js:53-72 | applying the same patch twice is applying it once |
| PreferencesStore.PreferencesMarkerShape | src/store/preferences.js:90-94 | the marker `update` builds is a valid `save` of type `preferences` filed under the fixed key `preferences` |
| PreferencesStore.AtMostOneMarker | src/store/preferences.js:85-95 | with at most the fixed-key marker before, recording one more leaves exactly one preferences marker, the newest |
| PreferencesStore.StoredItemRoundTrip | src/store/preferences.js:49-68 | the saved item is truthy, loading it brings back both saved zoom levels, and loading it into the state it came from changes nothing |
| PreferencesStore.PreferencesStore.constructor | src/store/preferences.js:19-25 | the defaults: instructions at 0.25 and editors at 1 |
| PreferencesStore.PreferencesStore.AllData | src/store/preferences.js:29-34 | the two zoom levels of the store's state |
| PreferencesStore.PreferencesStore.ClearStorage | src/store/preferences.js:39-47 | the storage is empty and the state back at the defaults 0.25 and 1 |
| PreferencesStore.PreferencesStore.LoadFromStorage | src/store/preferences.js:49-59 | the state is patched with the stored item when there is a truthy one, and unchanged otherwise |
| PreferencesStore.PreferencesStore.SaveToStorage | src/store/preferences.js:61-68 | the item `preferences` becomes `allData`; the state is unchanged |
| PreferencesStore.PreferencesStore.LoadFromData | src/store/preferences.js:70-80 | the state is patched with the data, marked as sent and saved |
| PreferencesStore.PreferencesStore.Update | src/store/preferences.js:85-95 | `allData` is saved and one `save` marker is recorded under the fixed key, and the changes store saves its type |
| PreferencesStore.PreferencesStore.GetChangedData | src/store/preferences.js:103-112 | one send entry per preferences marker due at the sending time, each with the current `allData` as payload |
| TaskStore.RemainingTime | src/store/task.js:111-115 | null exactly when the task has no truthy writing end; never a negative number |
| TaskStore.TaskStore.HasWritingEnd | src/store/task.js:32 | there is a writing end exactly when a remaining time is computed for it |
| TaskStore.EndReachedIff | src/store/task.js:33 | the remaining time is exactly 0 when there is a writing end and the server clock has reached it |
| TaskStore.TaskStore.constructor | src/store/task.js:16-28 | every property starts null |
| TaskStore.TaskStore.Record | src/store/task.js:88-94 | the stored record has exactly the five saved properties |
| TaskStore.TaskStore.SetData | src/store/task.js:38-44 | the five properties are taken from the data; data that is null or undefined throws and changes nothing |
| TaskStore.TaskStore.UpdateRemainingTime | src/store/task.js:108-120 | the remaining time is recomputed from the server time of `now`; review is asked for exactly when the end is reached or the writer is excluded; nothing else changes |
| TaskStore.TaskStore.ClearStorage | src/store/task.js:46-53 | the storage is empty and the state is kept |
| TaskStore.TaskStore.LoadFromStorage | src/store/task.js:55-67 | the stored task is taken over (a missing one throws inside the catch and leaves the state), then the remaining time is updated; the final `apiStore.setInterval` throws exactly when the api store lacks that action, which it does as written |
| TaskStore.TaskStore.LoadFromData | src/store/task.js:69-82 | the data is stored as given and taken over, then the remaining time is updated; the final `apiStore.setInterval` throws exactly when the api store lacks that action |
| TaskStore.TaskStore.LoadFromUpdate | src/store/task.js:84-103 | only the writing end and exclusion change, the stored record keeps the other three properties, then the remaining time is updated; the final `apiStore.setInterval` throws exactly when the api store lacks that action |
| TaskStore.RecordReloads | src/store/task.js:55-94 | the record `loadFromUpdate` stores, read by `loadFromStorage`, gives back the same five properties |
| AlertsStore.LastUnseenIsLast | src/store/alerts.js:93-96 | the active key `loadFromData` picks is the key of an alert whose key was not known and after which every key was known; there is none exactly when all keys were known |
| AlertsStore.FirstUnset | src/store/alerts.js:93-99 | the loop runs up to the first alert that is null or undefined, where reading its key throws |
| AlertsStore.Find | src/store/alerts.js:31-37 | the search gives the first alert whose key loosely equals the one asked for; undefined exactly when none matches and no alert is null or undefined; a throw exactly when it meets a null or undefined alert before any match |
| AlertsStore.NoMatchShift | src/store/alerts.js:31-37 | no match among the first n+1 alerts is no match among the first n after the head, when the head does not match |
| AlertsStore.FindFirstMatch | src/store/alerts.js:31-37 | the first matching alert reached before any null or undefined one is what `find` returns |
| AlertsStore.FindFirstMatches | src/store/alerts.js:31-37 | the same for every position that holds the first match |
| AlertsStore.AlertsStore.constructor | src/store/alerts.js:14-23 | empty lists, no active key, the list closed |
| AlertsStore.AlertsStore.ActiveMessage | src/store/alerts.js:30-33 | a throw exactly when the search for the active key throws; otherwise the message of the first alert with the active key (`''` for a falsy alert), and `''` when there is none |
| AlertsStore.AlertsStore.GetAlert | src/store/alerts.js:36-38 | the first alert whose key loosely equals the one asked for; undefined when none matches; a throw when a null or undefined alert comes first |
| AlertsStore.AlertsStore.ShowAlerts | src/store/alerts.js:50-52 | the list is shown and nothing else changes |
| AlertsStore.AlertsStore.HideAlert | src/store/alerts.js:54-57 | no alert is active and the list is closed |
| AlertsStore.AlertsStore.ClearStorage | src/store/alerts.js:60-67 | the storage is empty and the state is kept |
| AlertsStore.AlertsStore.LoadFromStorage | src/store/alerts.js:69-84 | the keys are the stored index when it is an array; the alerts are emptied first and then are the stored alerts of the index's elements (a string's characters) in reverse order, none when the index is not iterable |
| AlertsStore.AlertsStore.LoadFromData | src/store/alerts.js:86-110 | the storage is cleared and every alert written under its key; keys in data order, alerts reversed; with `show_new` the last unknown alert becomes active; a string is visited character by character; a list that is not iterable throws after the clear, a null or undefined alert throws when reached, and a throw keeps the lists but not the storage |
| AlertsStore.FirstUnsetOfSet | src/store/alerts.js:93-100 | a list without null or undefined alerts is visited to its end |
| AlertsStore.StringAlertsHaveNoKey | src/store/alerts.js:93-99 | a string sent as the list is visited to its end, and every character has an undefined key |
| AlertsStore.Collect | src/store/alerts.js:93-100 | the loop builds what the recursive definition says, up to the first null or undefined alert |
| AlertsStore.RunKeys | src/store/alerts.js:98 | the keys are the data keys in order |
| AlertsStore.RunAlerts | src/store/alerts.js:97 | the alerts are the data in reverse order |
| AlertsStore.RunStorage | src/store/alerts.js:99 | every alert is written under its key |
| AlertsStore.RunActive | src/store/alerts.js:94-96 | with `show_new` the active key is the last unknown one, otherwise it is unchanged |
| AlertsStore.RunFacts | src/store/alerts.js:93-100 | the four facts of the loop together |
| AlertsStore.WrittenReadsBack | src/store/alerts.js:77-99 | with keys of distinct string forms, each alert is read back under its key |
| AlertsStore.KeysOf | src/store/alerts.js:98 | the keys of a list of alerts, in order |
| AlertsStore.StoredAlertsReload | src/store/alerts.js:69-110 | what `loadFromData` stores is read back by `loadFromStorage`: the index lists the keys in order and each key leads to its alert |
| LayoutStore.LeftAndRightExclusive | src/store/layout.js:26-27 | no column value is loosely equal to both `'left'` and `'right'` |
| LayoutStore.LayoutStore.constructor | src/store/layout.js:14-20 | the left column expanded, showing the instructions, and the essay on the right |
| LayoutStore.LayoutStore.SomeColumnVisible | src/store/layout.js:26-27 | whatever the column value, at least one column is visible |
| LayoutStore.LayoutStore.VisibleIsColumnAndContent | src/store/layout.js:32-35 | instructions, resources and essay are each visible exactly when their column is visible and they are selected |
| LayoutStore.LayoutStore.SaveToStorage | src/store/layout.js:53-63 | the item `layout` becomes the three fields; the state is unchanged |
| LayoutStore.LayoutStore.LoadFromStorage | src/store/layout.js:40-51 | the three fields are taken from the stored record; a missing record throws and leaves them |
| LayoutStore.LayoutStore.SetLeftVisible | src/store/layout.js:83-88 | the left column is visible afterwards; the column switches to `'left'` and is saved only when it was hidden |
| LayoutStore.LayoutStore.SetRightVisible | src/store/layout.js:90-95 | the mirror of `setLeftVisible` for the right column |
| LayoutStore.LayoutStore.SetLeftExpanded | src/store/layout.js:97-100 | the column becomes `'left'` or `'none'`, both columns visible exactly when not expanded, and saved |
| LayoutStore.LayoutStore.SetRightExpanded | src/store/layout.js:102-105 | the column becomes `'right'` or `'none'`, both columns visible exactly when not expanded, and saved |
| LayoutStore.LayoutStore.ShowInstructions | src/store/layout.js:65-69 | the instructions are visible, the left column switched to only when it was hidden, and the layout saved |
| LayoutStore.LayoutStore.ShowResources | src/store/layout.js:71-75 | the resources are visible, the left column switched to only when it was hidden, and the layout saved |
| LayoutStore.LayoutStore.ShowEssay | src/store/layout.js:77-81 | the essay is visible, the right column switched to only when it was hidden, and the layout saved |
| SettingsStore.TinyToolbar | src/store/settings.js:60-73 | any value other than `full`, `medium` and `minimal` gets the toolbar of `none` |
| SettingsStore.TinyValidElements | src/store/settings.js:78-92 | any value other than `full`, `medium` and `minimal` gets `'p/div,p/li,br'` |
| SettingsStore.ToolbarsDistinct | src/store/settings.js:60-73 | the four options give four different toolbars, and any other value the toolbar of `none` |
| SettingsStore.ElementsFullOnly | src/store/settings.js:78-92 | only `full` allows headings and preformatted text, and every option but `none` allows more than paragraphs and breaks |
| SettingsStore.Headings | src/store/settings.js:99-120 | the heading entries of levels 1 to n, each formatting its level |
| SettingsStore.TinyStyles | src/store/settings.js:94-125 | 4 entries for `single`, 6 for `three`, 9 otherwise: paragraph first, headings, then preformatted text and list item |
| SettingsStore.ContentClass | src/store/settings.js:153-166 | the class is not empty exactly for the four schemes, and then `'headlines-'` followed by the scheme |
| SettingsStore.ColorCss | src/store/settings.js:39-51 | `'#'` followed by the colour when it is set, `''` exactly when it is not |
| SettingsStore.ColorRuleCss | src/store/settings.js:53-58 | `'color: #'` followed by the colour and `';'` when it is set, `''` exactly when it is not |
| SettingsStore.SettingsStore.HasNotes | src/store/settings.js:37 | a number of notice boards above 0 gives notes; NaN, null and undefined give none |
| SettingsStore.SettingsStore.PrimaryColorCss | src/store/settings.js:39-44 | `'#'` followed by the primary colour when it is set, `''` exactly when it is not |
| SettingsStore.SettingsStore.PrimaryTextColorCss | src/store/settings.js:46-51 | `'#'` followed by the text colour when it is set, `''` exactly when it is not |
| SettingsStore.SettingsStore.PrimaryTextColorFullCss | src/store/settings.js:53-58 | the text colour's css inside `color: …;` when it is set, `''` exactly when it is not |
| SettingsStore.SettingsStore.constructor | src/store/settings.js:22-33 | the initial settings: no scheme or options, 0 boards, no copying, no colours, no spellcheck |
| SettingsStore.SettingsStore.SetData | src/store/settings.js:171-179 | the seven settings are taken from the data; data that is null or undefined throws and changes nothing |
| SettingsStore.SettingsStore.ClearStorage | src/store/settings.js:181-188 | the storage is empty and the settings are kept |
| SettingsStore.SettingsStore.LoadFromStorage | src/store/settings.js:191-198 | the stored settings are taken over; a missing item leaves them |
| SettingsStore.SettingsStore.LoadFromData | src/store/settings.js:200-207 | the data is stored as given and taken over |
| ClipboardStore.Normalize | src/store/clipboard.js:8 | the normal form is no longer than the text, has no whitespace, and keeps every other character of it |
| ClipboardStore.NormalizeIsFilter | src/store/clipboard.js:8 | normalising is filtering out the whitespace characters, in order |
| ClipboardStore.NormalizeConcat | src/store/clipboard.js:8 | normalising works piece by piece |
| ClipboardStore.NormalizeClean | src/store/clipboard.js:8 | a text without whitespace is its own normal form |
| ClipboardStore.NormalizeBlank | src/store/clipboard.js:8 | a text of whitespace only normalises to `''` |
| ClipboardStore.NormalizeIdempotent | src/store/clipboard.js:4-9 | normalising twice is normalising once |
| ClipboardStore.PasteAllowed | src/store/clipboard.js:33-51 | pasting is allowed whenever copying is allowed, and otherwise exactly when both texts agree up to whitespace |
| ClipboardStore.PasteWithExtraWhitespace | src/store/clipboard.js:46-48 | content whose text is the copied text with whitespace around it may be pasted |
| ClipboardStore.ClipboardStore.constructor | src/store/clipboard.js:15-20 | no content and no warning |
| ClipboardStore.ClipboardStore.PasteOwnContent | src/store/clipboard.js:46-48 | the copied content itself may always be pasted back |
| ClipboardStore.ClipboardStore.SetContent | src/store/clipboard.js:62-65 | the content is replaced and the warning kept |
| ClipboardStore.ClipboardStore.ShowWarning | src/store/clipboard.js:67-69 | the warning is shown and the content kept |
| ClipboardStore.ClipboardStore.HideWarning | src/store/clipboard.js:71-73 | the warning is hidden and the content kept |
| Api.Lookup | src/store/api.js:165-170 | a local storage item or cookie reads as a value exactly when it is present, null otherwise |
| Api.StoredOffset | src/store/api.js:171 | the stored time offset is read back as a whole number, and as 0 when no offset is stored |
| Api.Pick | src/store/api.js:174-192 | a cookie that is set always wins over the stored value; an unset cookie keeps the stored value |
| Api.WithCookies | src/store/api.js:174-192 | each of the user, environment, backend, return and token cookies that is set replaces its stored value; the file token is never taken from a cookie; no cookies change nothing |
| Api.NewContextIffIdentityChanged | src/store/api.js:174-181 | the context is new exactly when taking over the cookies changed the user key or the environment key |
| Api.Decide | src/store/api.js:194-248 | `init` fails exactly when the configuration is incomplete; with unsent edits it never loads from the backend; it loads from the backend exactly when nothing is unsent and the context is new or the backend's hash is missing or differs; a confirmation is asked only for unsent edits in a new context or under a differing hash; storage is used only in the same context with no differing hash |
| Api.SameContextUsesStorage | src/store/api.js:217-243 | in the same context the stored data is used when the backend's hash matches, or when there is no hash and edits are unsent |
| Api.InitIgnoresStoredMarkers | src/store/api.js:203-216 | with the changes store not yet loaded, `countChanges > 0` is false whatever markers are stored, so `init` loads from the backend; as written that load replaces the settings and throws at the task store, and once the task store's call is fixed it clears the stored markers |
| Api.CorrectedInitKeepsStoredMarkers | src/store/api.js:203-248 | asking the changes storage instead, stored markers always keep `init` from loading over them from the backend |
| Api.WaitForSending | src/store/api.js:430-436 | the forced save waits at most five times, each wait only while a sending was seen running, and stops early only once no sending runs |
| Api.CompletedCount | src/store/api.js:278-329 | the number of calls of a sequence that return is at most its length |
| Api.Completed | src/store/api.js:278-329 | the calls that return form a prefix of the sequence |
| Api.CompletedStopsAtThrow | src/store/api.js:278-329 | every completed call returns, and the sequence stops only at a call that throws |
| Api.CompletedUpTo | src/store/api.js:278-329 | the completed calls are exactly those before the first call that throws |
| Api.FixesAddOnlyTheirCalls | src/store/api.js:321-329 | each correction makes exactly its own calls return: the layout store's `clearStorage`, and the task store's loads, which end with `apiStore.setInterval` (src/store/task.js:64-66, 78-80, 100-102) |
| Api.StorageLoadThrowsAtTask | src/store/api.js:278-284 | as written, loading from the storage loads the settings and throws at the task store: resources, notes, layout and change markers are not loaded |
| Api.BackendLoadThrowsAtTask | src/store/api.js:321-329 | as written, loading from the backend takes over the settings and throws at the task store, before the change markers and the layout are cleared |
| Api.BackendLoadThrowsAtLayout | src/store/api.js:321-329 | with the task store's call fixed, the load from the backend makes the first seven calls and throws at the layout store's `clearStorage`, before the start is sent |
| Api.FinalizeThrowsAtLayout | src/store/api.js:581-588 | without a layout `clearStorage`, `finalize` clears the settings, task, resources and essay stores and throws at the layout store: the alerts and the local storage are not cleared and the writer is not sent to the return url |
| Api.CorrectedBackendLoadCompletes | src/store/api.js:321-329 | with both corrections the load from the backend makes all eight calls; with either one alone it still throws |
| Api.CorrectedFinalizeCompletes | src/store/api.js:581-588 | with a layout `clearStorage`, `finalize` makes all six clearing calls |
| Api.CorrectedStorageLoadCompletes | src/store/api.js:278-284 | with the api store's `setInterval`, loading from the storage makes all seven calls |
| Api.QueryStart | src/store/api.js:80 | the position found holds the first '?' of the url; no position means the url has no '?' |
| Api.SplitUrl | src/store/api.js:80-84 | the base url has no '?'; base, '?' and query give back the url; a url without '?' is its own base with an empty query |
| Api.OffsetAfter | src/store/api.js:525-533 | an answer without a time header leaves the time offset unchanged |
| Api.TokensAfter | src/store/api.js:541-551 | only the data and file tokens change, each to its header when that header is set |
| Api.TokensSurviveRestart | src/store/api.js:541-551 | the tokens an answer brings are exactly those the next start-up reads from the local storage |
| Api.OffsetSurvivesRestart | src/store/api.js:525-533 | an integral time offset taken from a header is read back unchanged at the next start-up |
| Api.NumberReadsBack | src/store/api.js:525-533 | an integer written to the local storage and read back through `Math.floor` is the same integer |
| Api.ApiStore.constructor | src/store/api.js:26-50 | the start state: every configuration value empty, offset 0, every flag false, no request running |
| Api.ApiStore.IsSending | src/store/api.js:63-65 | as written the getter yields undefined, which is never truthy |
| Api.ApiStore.AllSentWhileSending | src/store/api.js:57-65 | as written, `isAllSent` holds while a sending is still running |
| Api.ApiStore.AllSentMeansIdle | src/store/api.js:57-65 | with the missing `return`, everything is sent exactly when no request runs, no essay saving is open and no change marker is left |
| Api.ApiStore.GetServerTime | src/store/api.js:123-125 | client time 0 gives 0; otherwise the result is the whole number of seconds of client time minus the offset, rounded down |
| Api.ApiStore.GetRequestConfig | src/store/api.js:74-98 | a null backend url has no request config; otherwise the base url has no '?' and with the query gives back the backend url, the timeout is 30000 ms, and the third parameter is the md5 signature of user key, environment key and token |
| Api.ApiStore.InitStart | src/store/api.js:159-248 | `init` takes the stored configuration and the cookies, takes the decision `Decide` states, and shows exactly the dialog that decision asks for; no other state changes |
| Api.ApiStore.InitFinish | src/store/api.js:250 | the timed synchronisation starts unless `init` failed or its load threw |
| Api.ApiStore.UpdateConfig | src/store/api.js:499-516 | the six cookies are removed and the six configuration values are written to the local storage |
| Api.ApiStore.UpdatedConfigReadsBack | src/store/api.js:510-515 | the configuration written by `updateConfig` is read back unchanged when no value is null |
| Api.ApiStore.SetTimeOffset | src/store/api.js:525-533 | with a time header, the offset becomes client time minus server time and is stored; without one nothing changes |
| Api.ApiStore.RefreshToken | src/store/api.js:541-551 | each token header that is set replaces its token in memory and in the local storage; nothing else changes |
| Api.ApiStore.TakeAnswer | src/store/api.js:353-354 | an answer first sets the time offset and then refreshes the tokens |
| Api.ApiStore.SendStart | src/store/api.js:374-391 | the server time of now is sent; an answer is taken over; a failed request shows the init failure and changes nothing else |
| Api.ApiStore.LoadDataFromStorage | src/store/api.js:265-290 | the configuration is saved to the local storage and the stores load in order up to the first call that throws; the writer is initialized exactly when every call returned, and the rejection is reported otherwise; nothing else changes |
| Api.ApiStore.LoadDataFromBackend | src/store/api.js:296-336 | a failed request shows the init failure and loads nothing; otherwise the answer is taken over, the stores take over the data in order, a throw leaves the writer uninitialized, and the start is sent exactly when nothing threw and the essay was not started |
| Api.ApiStore.StartUpdate | src/store/api.js:345-349 | the update check runs exactly when no request is running, and marks its request as running at now |
| Api.ApiStore.FinishUpdate | src/store/api.js:351-368 | the running mark is cleared either way; an answer is taken over; with data the task store takes it over with the remaining time of the new offset and review mode starts when the writing end is reached or the writer is excluded; the result is true, and the alerts are loaded, exactly when there was data and the task store's load did not throw, which as written it does |
| Api.ApiStore.StartSave | src/store/api.js:425-452 | after at most five waits, a running sending stops the save with false, no changes ends it with true, otherwise the sending is marked running at now and sends exactly the due note markers, each with its stored payload, and no preferences |
| Api.ApiStore.FinishSave | src/store/api.js:452-468 | the running mark is cleared; a failed sending keeps every marker; a successful one acknowledges the processed note and preference markers against the sending time and records the success time |
| Api.ApiStore.StartSteps | src/store/api.js:403 | the steps sending marks itself running at now whatever else runs |
| Api.ApiStore.FinishSteps | src/store/api.js:404-415 | the steps mark is cleared; a successful answer is taken over, a failed one changes nothing else |
| Api.ApiStore.Finalize | src/store/api.js:558-590 | the final content is sent exactly when authorizing or essay savings are open; a failed sending shows the review with the failure and changes nothing else; otherwise the answer's tokens are taken over, the stores are cleared in order, and only when every clear was made is the local storage emptied and the writer sent to the return url, else the local storage keeps the new tokens; cookies, timers and the running marks are untouched |
| Api.ApiStore.Retry | src/store/api.js:598-614 | the review is always shown again; the essay savings are marked sent exactly when the sending succeeded, whose tokens are then taken over in the configuration and the local storage, and a failure is shown otherwise; cookies, timers and the running marks are untouched |
| BridgeSync.Kept | dist/annotate-pdf/iframe-bridge.js:299-305 | the filter of `enqueue` keeps exactly the slots that are not actions of the given name, and keeps the running placeholder at the head |
| BridgeSync.Killed | dist/annotate-pdf/iframe-bridge.js:299-305 | the actions `enqueue` kills are queued actions |
| BridgeSync.IdsAppend | dist/annotate-pdf/iframe-bridge.js:306 | appending a slot adds its call and its name to those of the queue |
| BridgeSync.UniqueAppend | dist/annotate-pdf/iframe-bridge.js:306 | appending an action whose call and name are new keeps the queue free of duplicates |
| BridgeSync.KeptIds | dist/annotate-pdf/iframe-bridge.js:299-305 | coalescing drops exactly the calls it kills |
| BridgeSync.KeptNames | dist/annotate-pdf/iframe-bridge.js:299-305 | coalescing drops exactly the given name |
| BridgeSync.KeptUnique | dist/annotate-pdf/iframe-bridge.js:299-305 | coalescing keeps the queue free of duplicates |
| BridgeSync.KeptSubset | dist/annotate-pdf/iframe-bridge.js:299-305 | coalescing adds no call and no name |
| BridgeSync.KilledAtMostOne | dist/annotate-pdf/iframe-bridge.js:299-305 | in a queue without duplicates at most one action is killed, and none when the name is not queued, so two queued actions of one name become one |
| BridgeSync.KilledNone | dist/annotate-pdf/iframe-bridge.js:299-305 | a name that is not queued kills nothing |
| BridgeSync.EnqueuedFacts | dist/annotate-pdf/iframe-bridge.js:295-309 | after `enqueue` the queue has no duplicates, holds the new action as the only one of its name, loses exactly the killed calls, and keeps the running placeholder at the head |
| BridgeSync.KeptPlaceholder | dist/annotate-pdf/iframe-bridge.js:299-305 | coalescing leaves no placeholder behind the head |
| BridgeSync.IdsSplit | dist/annotate-pdf/iframe-bridge.js:317 | putting the placeholder in the head's place removes exactly the head's call and name |
| BridgeSync.Entry.constructor | dist/annotate-pdf/iframe-bridge.js:56 | a new entry has no queue, no listener and no `returnPending` |
| BridgeSync.Entry.Enqueue | dist/annotate-pdf/iframe-bridge.js:276-309 | the queued actions of the same name are resolved without running, the new action is appended, and nothing runs |
| BridgeSync.Entry.Dequeue | dist/annotate-pdf/iframe-bridge.js:311-320 | an empty queue does nothing; a placeholder at the head throws; otherwise the head runs, is resolved and leaves the placeholder in its place |
| BridgeSync.Entry.Sync | dist/annotate-pdf/iframe-bridge.js:251-274 | an idle entry with a rendered layer runs the action at once; without a layer the action waits with a listener and a `returnPending`; a busy entry only enqueues; the queue keeps its documented discipline |
| BridgeSync.Entry.SerialAfterFirst | dist/annotate-pdf/iframe-bridge.js:253-271 | the first action of an idle entry leaves the queue discipline intact |
| BridgeSync.Entry.SerialAfterEnqueue | dist/annotate-pdf/iframe-bridge.js:274 | enqueueing on a busy entry leaves the queue discipline intact |
| BridgeSync.Entry.Settle | dist/annotate-pdf/iframe-bridge.js:321-324 | when the running result settles, the head slot is dropped and the next action runs, so actions run one after another |
| BridgeSync.Entry.LayerRendered | dist/annotate-pdf/iframe-bridge.js:285-293 | a rendered page other than the entry's changes nothing; on the entry's page the head runs and the listener unsubscribes, unless the dequeue throws first |
| BridgeSync.Entry.ReturnPending | dist/annotate-pdf/iframe-bridge.js:264-269 | as written, every queued action is resolved without running, and the queue, the closure and its listener are dropped, including the running action's placeholder |
| BridgeSync.Entry.ReturnPendingCorrected | dist/annotate-pdf/iframe-bridge.js:264-269 | the queued actions are resolved without running but the running action's placeholder stays, so the queue discipline is kept |
| BridgeSync.LostAction | dist/annotate-pdf/iframe-bridge.js:251-325 | create without a layer, render the page, return the pending actions, then sync an update: the update is neither run nor resolved, and nothing is left to run it |
| BridgeSync.KeptAction | dist/annotate-pdf/iframe-bridge.js:251-325 | with the corrected `returnPending`, the same events run the update after the create |
| PdfBridge.FromUndefined | dist/annotate-pdf/iframe-bridge.js:495-506 | comparing undefined with a value gives null exactly for undefined and never throws |
| PdfBridge.Diff | dist/annotate-pdf/iframe-bridge.js:495-541 | `===`-equal values give null; values of different `typeof` give a type report of both types; every report is an object |
| PdfBridge.ArraySameElems | dist/annotate-pdf/iframe-bridge.js:508-523 | two arrays giving null give null at every index up to the longer length |
| PdfBridge.ElemsSameArray | dist/annotate-pdf/iframe-bridge.js:508-523 | two arrays give null when every index up to the longer length does |
| PdfBridge.ObjectSameProps | dist/annotate-pdf/iframe-bridge.js:525-540 | an object giving null gives null at every key of either side |
| PdfBridge.PropsSameObject | dist/annotate-pdf/iframe-bridge.js:525-540 | an object gives null when every key of either side does |
| PdfBridge.DiffSameIffEqual | dist/annotate-pdf/iframe-bridge.js:495-541 | `diff` gives null exactly for structurally equal values (the independent definition `Equal`), in both directions |
| PdfBridge.EqualReflexive | dist/annotate-pdf/iframe-bridge.js:495-541 | a value without NaN is structurally equal to itself |
| PdfBridge.DiffReflexive | dist/annotate-pdf/iframe-bridge.js:495-541 | a value without NaN, however nested, shows no difference to itself |
| PdfBridge.NaNDiffers | dist/annotate-pdf/iframe-bridge.js:497-506 | NaN against NaN gives the report `{left: NaN, right: NaN}` |
| PdfBridge.ObjectVersusArraySame | dist/annotate-pdf/iframe-bridge.js:508-540 | an object against an array with the same entries gives null |
| PdfBridge.ArrayVersusObjectDiffers | dist/annotate-pdf/iframe-bridge.js:508-511 | an array against an object with the same entries gives the report `{leftType: 'Array', rightType: 'Object'}` |
| PdfBridge.NullThrows | dist/annotate-pdf/iframe-bridge.js:510-526 | comparing an object or array with null throws in either order |
| PdfBridge.TrailingUndefined | dist/annotate-pdf/iframe-bridge.js:513-518 | a trailing undefined element is no difference |
| PdfBridge.Strings | dist/annotate-pdf/iframe-bridge.js:155-156 | the array holds the given strings in order |
| PdfBridge.ArrayEqualsStrings | dist/annotate-pdf/iframe-bridge.js:490-493 | for arrays of strings, `arrayEquals` holds exactly when the two lists are equal |
| PdfBridge.ExternEntry | dist/annotate-pdf/iframe-bridge.js:195-202 | the outside view has exactly the id, the page and the serialised editor of the entry |
| PdfBridge.ExternOfExtern | dist/annotate-pdf/iframe-bridge.js:195-202 | taken twice, the outside view is taken once |
| PdfBridge.Used | dist/annotate-pdf/iframe-bridge.js:120-122 | the entries kept are exactly those on another page, among the used ids, with pending actions, or being updated |
| PdfBridge.Unused | dist/annotate-pdf/iframe-bridge.js:121 | the entries removed are exactly those not kept |
| PdfBridge.FiltersSplit | dist/annotate-pdf/iframe-bridge.js:120-122 | the kept and the removed entries together are the entries, none lost or duplicated |
| PdfBridge.Reports | dist/annotate-pdf/iframe-bridge.js:124 | a `delete` event is dispatched for exactly the removed entries whose id is not in `deletedIds`, with their outside view |
| PdfBridge.Pruned | dist/annotate-pdf/iframe-bridge.js:125 | the ids kept are exactly those that name no removed entry |
| PdfBridge.KeptEntries | dist/annotate-pdf/iframe-bridge.js:120-122 | an entry on another page, with pending actions or being updated is always kept |
| PdfBridge.PrunedForgetsDeleted | dist/annotate-pdf/iframe-bridge.js:125 | the id of a removed entry is gone from `deletedIds` afterwards |
| PdfBridge.Bridge.constructor | dist/annotate-pdf/iframe-bridge.js:28-31 | the bridge starts with no entries, no update running, no deleted ids and no events |
| PdfBridge.Bridge.CheckForChanges | dist/annotate-pdf/iframe-bridge.js:117-127 | the entries become the kept ones, the update mark is cleared, the delete events of the removed ones are dispatched and `deletedIds` forgets them |
| PdfBridge.State.constructor | dist/annotate-pdf/iframe-bridge.js:466-467 | the cell starts with its initial value and no update |
| PdfBridge.State.Call | dist/annotate-pdf/iframe-bridge.js:468-474 | a call without arguments reads the value and changes nothing; a call with one hands old and new value to `onUpdate` and stores the new one |
| AnnotationData.Annotation.SetData | src/data/Annotation.js:44-57 | each property given neither undefined nor null is taken over, the resource key as a string and the others as given; every other property keeps its value |
| AnnotationData.NewWellFormed | src/data/Annotation.js:10-37 | an annotation built from data never holds undefined or null in its local key, parent number or value |
| AnnotationData.GetDataFields | src/data/Annotation.js:44-70 | `getData` has exactly the four properties, and `setData` on it gives back a well-formed annotation |
| AnnotationData.CloneIsCopy | src/data/Annotation.js:85-87 | a clone equals the original, so it has the same data and the same key |
| AnnotationData.KeyIsNotIndex | src/data/Annotation.js:76-78 | every key starts with "ANNO-", so none is the name of the key index |
| AnnotationData.KeyWithinResource | src/data/Annotation.js:76-78 | within one resource two annotations share a key exactly when their local keys print the same |
| AnnotationData.KeysOfDifferentResourcesCollide | src/data/Annotation.js:76-78 | resource "a-b" with local key "c" and resource "a" with local key "b-c" get the same key |
| AnnotationData.PersistedRoundTrip | src/data/Annotation.js:35-70 | an annotation written as JSON and read back into `new Annotation` is unchanged when JSON carries its properties |
| ResourceData.Resource.SetData | src/data/Resource.js:75-103 | the type is taken over exactly when it is one of the allowed types; an explicit url wins, otherwise a source on a url resource becomes its url and the url is kept in every other case; key, title, embedded flag, source, mimetype and size given neither undefined nor null are taken over (the size parsed as an integer) and otherwise kept |
| ResourceData.TypeFrom | src/data/Resource.js:82-84 | a type is taken over exactly when it is one of the four allowed type names, and otherwise the type is kept |
| ResourceData.IncludesAllowed | src/data/Resource.js:82 | `ALLOWED_TYPES.includes` holds exactly for the four type names |
| ResourceData.SetDataWellFormed | src/data/Resource.js:67-103 | a resource only ever has one of the allowed types or none, a set mimetype and an integral size, and `setData` keeps it so |
| ResourceData.SourceAndUrl | src/data/Resource.js:88-96 | a source given to a url resource becomes its url; an explicit url given with it wins |
| ResourceData.SourceOfFile | src/data/Resource.js:88-93 | a source given to a file resource leaves the url alone |
| ResourceData.GetDataReads | src/data/Resource.js:67-119 | `getData` has exactly the seven persisted properties, and a resource is rebuilt from them except for its source |
| ResourceData.CloneKeepsData | src/data/Resource.js:156-158 | a clone has the same data and key as the original and loses only the source |
| ResourceData.PersistedRoundTrip | src/data/Resource.js:67-119 | a resource written as JSON and read back is rebuilt except for its source |
| ResourceData.PdfTypes | src/data/Resource.js:121-138 | `isPdf` and `hasFileToLoad` agree and hold exactly for files, solutions and instructions |
| ResourceData.UrlKinds | src/data/Resource.js:125-134 | a url resource is external or embedded, never both, and no other resource is either; embedded-selectable means a file or an embedded url |
| ResourceData.SelectablePdf | src/data/Resource.js:121-134 | a PDF that can be shown embedded is exactly a file |
| AnnotationsStore.SelectMembers | src/store/annotations.js:41-43 | the annotations selected for a resource are exactly those of that resource, and the ones kept beside them (src/store/annotations.js:133) exactly those of the other resources |
| AnnotationsStore.OfResourceIsFilter | src/store/annotations.js:41-43 | both selections are the order-keeping `filter` with the test the store writes |
| AnnotationsStore.ResourcesPartition | src/store/annotations.js:132-133 | the annotations of a resource and those of the others split the list, none lost or duplicated |
| AnnotationsStore.SelectAppend | src/store/annotations.js:137 | selecting from a concatenation selects from each part in turn |
| AnnotationsStore.SelectOneResource | src/store/annotations.js:132-133 | a list of one resource's annotations selects as itself for that resource and as nothing for the others |
| AnnotationsStore.SavedSelection | src/store/annotations.js:130-138 | after the save, the resource has exactly the given annotations of it, and every other resource keeps its annotations in order, behind any of its annotations in the given list |
| AnnotationsStore.NoneOfResource | src/store/annotations.js:133 | the other resources hold no annotation of the resource |
| AnnotationsStore.OthersOfOther | src/store/annotations.js:133 | dropping one resource keeps the annotations of every other resource as they were |
| AnnotationsStore.SavedOwnAnnotations | src/store/annotations.js:130-138 | saving a resource's own annotations makes them exactly what the getter returns for it and leaves the other resources' annotations as they were |
| AnnotationsStore.OtherOfOthers | src/store/annotations.js:133 | dropping a resource twice drops it once |
| AnnotationsStore.KeysOf | src/store/annotations.js:113-138 | the key list has one key per annotation, in list order |
| AnnotationsStore.KeysOfAppend | src/store/annotations.js:113 | pushing an annotation pushes its key |
| AnnotationsStore.WrittenKeys | src/store/annotations.js:114-145 | items are written under exactly the keys of the list |
| AnnotationsStore.WrittenImages | src/store/annotations.js:114-145 | with distinct keys, each annotation's item is its own JSON image |
| AnnotationsStore.ReadAnnotationsBound | src/store/annotations.js:80-89 | the load reads at most one annotation per indexed key, each well formed |
| AnnotationsStore.ReadBack | src/store/annotations.js:80-89 | annotations whose items are their images read back as themselves, in index order |
| AnnotationsStore.IndexIsNoAnnotationKey | src/store/annotations.js:117-147 | no annotation is stored under the name of the key index |
| AnnotationsStore.SavedStorageFacts | src/store/annotations.js:138-147 | after the save, the index names the new list; every annotation of it has an item, its image when keys are distinct; a removed annotation not written again has none; every other item is as it was |
| AnnotationsStore.SavedReloads | src/store/annotations.js:70-148 | with distinct keys, the storage a save leaves reloads as the saved list |
| AnnotationsStore.DataAnnotations | src/store/annotations.js:109-111 | one annotation per plain object of the data, in data order |
| AnnotationsStore.LoadedDataReloads | src/store/annotations.js:70-122 | with distinct keys, what `loadFromData` writes is indexed by the key list and reloads through `loadFromStorage` as the same list |
| AnnotationsStore.RemoveItems | src/store/annotations.js:140-142 | the loop removes exactly the items of the removed annotations |
| AnnotationsStore.WriteItems | src/store/annotations.js:144-146 | the loop writes each annotation's image under its key, later ones overwriting earlier ones |
| AnnotationsStore.ReadItems | src/store/annotations.js:80-89 | the loop rebuilds the annotations of the indexed entries that are objects, in index order |
| AnnotationsStore.FileAnnotations | src/store/annotations.js:109-115 | the loop builds, lists, indexes and writes one annotation per plain object |
| AnnotationsStore.AnnotationsStore.constructor | src/store/annotations.js:12-20 | the store starts with no keys and no annotations |
| AnnotationsStore.AnnotationsStore.GetAnnotationsForResource | src/store/annotations.js:35-45 | the getter returns exactly the annotations of the given resource |
| AnnotationsStore.AnnotationsStore.ClearStorage | src/store/annotations.js:55-63 | the storage and the state are emptied |
| AnnotationsStore.AnnotationsStore.LoadFromStorage | src/store/annotations.js:70-95 | after a reset, the keys are the stored index and the annotations those read from the indexed items; the storage is unchanged |
| AnnotationsStore.AnnotationsStore.LoadFromData | src/store/annotations.js:104-122 | the backend's annotations replace everything, in data order, up to the first null element, where `new Annotation(null)` throws (none when the data is not an array or string); exactly their items are stored, and the index only when the loop ran to its end |
| AnnotationsStore.AnnotationsStore.SaveAnnotationsForResource | src/store/annotations.js:130-148 | the given annotations take the place of the resource's, in front of the others; the keys follow the new list; the storage is what `SavedStorage` describes |
| ResourcesStore.Find | src/store/resources.js:29-59 | `find` gives nothing exactly when no resource passes, and otherwise the first resource that passes |
| ResourcesStore.FileOrUrl | src/store/resources.js:48-50 | the resources kept are exactly the file and url resources |
| ResourcesStore.FileOrUrlIsFilter | src/store/resources.js:48-50 | the selection is the order-keeping `filter` with the store's test |
| ResourcesStore.KeyMatchesActive | src/store/resources.js:53-84 | against a string active key `==` is string equality, and the empty array that stands for a missing active key matches exactly the empty key |
| ResourcesStore.DataResources | src/store/resources.js:114-119 | one resource per plain object of the data, in data order, each placed at its url |
| ResourcesStore.DataUrls | src/store/resources.js:115-118 | each resource keeps the data's properties; its url is its own for a link and the backend's url for its key otherwise |
| ResourcesStore.ActiveIsFirstSelectable | src/store/resources.js:120-122 | the active key is that of the first embedded-selectable resource with a non-empty key, and empty exactly when there is none |
| ResourcesStore.NoSelectableNoActive | src/store/resources.js:120-122 | with no embedded-selectable resource the active key stays empty |
| ResourcesStore.KeysOf | src/store/resources.js:124 | the key list has one key per resource, in list order |
| ResourcesStore.KeysOfAppend | src/store/resources.js:124 | pushing a resource pushes its key |
| ResourcesStore.FileStep | src/store/resources.js:114-126 | one more resource adds its key, its item and, while none is active yet and it is embedded-selectable, its key as the active key |
| ResourcesStore.FileResources | src/store/resources.js:114-126 | the loop builds, places, lists, indexes and writes one resource per plain object and arrives at the active key `ActiveOf` states |
| ResourcesStore.ReadItems | src/store/resources.js:87-97 | the loop rebuilds the resources of the indexed entries that are objects, in index order |
| ResourcesStore.Reloaded | src/data/Resource.js:109-119 | a resource read back is the same resource without its source |
| ResourcesStore.WrittenImages | src/store/resources.js:125 | with distinct keys, items are written under exactly the keys and each is its resource's image |
| ResourcesStore.ReadBack | src/store/resources.js:87-97 | resources whose items are their images read back as themselves without their sources |
| ResourcesStore.ReloadLosesResources | src/store/resources.js:80-128 | as written, a fresh store reloading what `loadFromData` stored finds no index and no resource, whatever the data held |
| ResourcesStore.ReloadKeepsResources | src/store/resources.js:78-137 | reading the index under "keys" reloads the same keys, the same resources without their source and the same active key |
| ResourcesStore.LoadedItems | src/store/resources.js:125-129 | `loadFromData` stores the index of the keys, the active key, and each resource's image under its key |
| ResourcesStore.DataWellFormed | src/store/resources.js:115 | every resource built from the data is well formed |
| ResourcesStore.ResourcesStore.constructor | src/store/resources.js:16-23 | the store starts with no keys, no resources and the empty active key |
| ResourcesStore.ResourcesStore.HasResources | src/store/resources.js:26 | there are resources exactly when the key index is not empty; without any, the active title is empty |
| ResourcesStore.ResourcesStore.GetResource | src/store/resources.js:58-60 | the first resource with the key, none exactly when no resource has it |
| ResourcesStore.ResourcesStore.ActiveTitle | src/store/resources.js:52-56 | with no resource matching the active key the title is empty |
| ResourcesStore.ResourcesStore.ClearStorage | src/store/resources.js:69-76 | only the storage is cleared; the lists and the active key stay |
| ResourcesStore.ResourcesStore.LoadFromStorage | src/store/resources.js:78-105 | as written, the index is read from "resourceKeys" (the keys in memory stay without it), the active key is the stored one or the empty array, and the resources are those read from the indexed items |
| ResourcesStore.ResourcesStore.LoadFromStorageCorrected | src/store/resources.js:78-128 | the same load, reading the index under "keys" |
| ResourcesStore.ResourcesStore.LoadFromData | src/store/resources.js:107-137 | the backend's resources replace everything, in data order and placed at their urls, up to the first null element, where `new Resource(null)` throws (none when the data is not an array or string); the first embedded-selectable one becomes active; exactly their items are stored, and the index and the active key only when the loop ran to its end |
| ResourcesStore.ResourcesStore.SelectResource | src/store/resources.js:139-142 | the resource's key becomes the active key in memory and in the storage, and the resource then counts as active |
| ResourcesStore.LooseEqStrings | src/store/resources.js:63 | a string is `==` to itself |
| ResourcesStore.Getters | src/store/resources.js:28-50 | `hasInstruction` holds exactly when some resource is an instruction, `hasAnnotatableResource` when some is an instruction or a file, `hasEmbeddedFileOrUrlResources` when some file or url resource is embedded |
| ResourcesStore.FirstInstruction | src/store/resources.js:33-35 | `getInstruction` is the first instruction of the list |
| WritingStepData.WritingStep.SetData | src/data/WritingStep.js:56-75 | each property given neither undefined nor null is taken over, the flag as a boolean, the time and the distance parsed as integers, the texts as strings; every other property keeps its value |
| WritingStepData.NewWellFormed | src/data/WritingStep.js:48-75 | a step built from data has a whole (or NaN) time and distance |
| WritingStepData.Defaults | src/data/WritingStep.js:12-42 | `new WritingStep()` is a delta at time 0 with empty texts and distance 0 |
| WritingStepData.GetDataFields | src/data/WritingStep.js:81-90 | `getData` has exactly the six properties |
| WritingStepData.DataRoundTrip | src/data/WritingStep.js:48-90 | a step rebuilt from its data is the same step, with the same data |
| SendingResultData.SendingResult.SetData | src/data/SendingResult.js:37-47 | each property given neither undefined nor null is taken over, the flag as a boolean and the texts as strings; every other property keeps its value |
| SendingResultData.FailureOnlyWhenSaid | src/data/SendingResult.js:10-47 | `new SendingResult()` is a success, and a result is a failure exactly when the data gives a falsy `success` that is neither undefined nor null |
| SendingResultData.DataRoundTrip | src/data/SendingResult.js:29-59 | `getData` has exactly the three properties, and a result rebuilt from them is the same |
| TextMarker.Without | src/lib/TextMarker.js:214 | the marks kept are exactly those that differ from the hidden mark |
| TextMarker.WithoutClass | src/lib/TextMarker.js:234 | the marks kept are exactly those of another css class |
| TextMarker.WithoutAppend | src/lib/TextMarker.js:214 | removing from a concatenation removes from each part |
| TextMarker.WithoutAbsent | src/lib/TextMarker.js:214 | hiding a mark that is not shown keeps the list as it is |
| TextMarker.ShowThenHide | src/lib/TextMarker.js:193-214 | hiding the mark just shown gives back the list from before, when that mark was not shown already |
| TextMarker.WithoutKeepsOrder | src/lib/TextMarker.js:214 | the marks that stay keep their order |
| TextMarker.LowestIsMin | src/lib/TextMarker.js:148-163 | on words numbered from 1, the first word found is the smallest selected number, with the paragraph of the first word that has it; with nothing selected both are 0 |
| TextMarker.HighestIsMax | src/lib/TextMarker.js:148-163 | on words numbered from 1, the last word found is the largest selected number, and 0 with nothing selected |
| TextMarker.ZeroIsNoFirstWord | src/lib/TextMarker.js:155-158 | a word numbered 0 is taken for "no first word yet", so the next selected word replaces it |
| TextMarker.GetSelectionData | src/lib/TextMarker.js:132-171 | without a range `getRangeAt(0)` throws, so the method never returns `{}`; with one, the loop arrives at the first word, last word and paragraph `SelectionOf` states |
| TextMarker.SelectionReported | src/lib/TextMarker.js:94-101 | on numbered words, the selection is handed to `onSelection` exactly when it contains a word |
| TextMarker.FirstVisibleIsMin | src/lib/TextMarker.js:107-116 | with marks starting at numbered words, the word reported is the smallest start of a visible mark, and 0 when no mark is visible |
| TextMarker.TextMarker.constructor | src/lib/TextMarker.js:24-48 | a new marker shows no marks |
| TextMarker.TextMarker.ShowMark | src/lib/TextMarker.js:193-205 | exactly the given mark is appended |
| TextMarker.TextMarker.HideMark | src/lib/TextMarker.js:213-226 | every mark equal to the given one is removed, the others stay in order |
| TextMarker.TextMarker.HideAllMarksOfClass | src/lib/TextMarker.js:233-239 | exactly the marks of the css class are removed |
| TextMarker.TextMarker.HideAllMarksAndLabels | src/lib/TextMarker.js:244-253 | no mark is left |
| TextMarker.TextMarker.IntersectionHandler | src/lib/TextMarker.js:107-116 | the loop reports the first visible word `FirstVisible` states |
| TextMarker.Create | src/lib/TextMarker.js:29-32 | the constructor throws exactly when the anchor element is missing, and otherwise gives a new marker without marks |

## Left out

- HTTP requests (axios), cookies (`js-cookie`), `localStorage` and the localForage instances are not modelled as services. Storage is a `map` field holding what reading each item back gives: `JSON.parse` of the string for an item written with `JSON.stringify` (the records and the key indexes), the value itself (`Persisted`, a structured clone) for an item stored as an object (alerts, settings, task, layout, preferences), and the plain string for the active resource key. Cookies, server answers and response headers are parameters.
- Timers (`setInterval`, `setTimeout`), promise scheduling and `window.location` are left out. Time is a parameter `now`. Each awaited request is a pair of methods, one that starts it and one that applies its answer, called one after the other. An exception is modelled as a `threw` result, or as an `Option` that is None, where it changes what happens next: a caught one ends its `try` block, an uncaught one ends the caller's sequence of store calls.
- The essay store is not part of this model. `hasUnsentSavingsInStorage`, `hasHashInStorage`, `openSendings`, `unsentHistory` and `setAllSavingsSent` are boolean or `nat` parameters, or calls recorded by name.
- `md5` and `getResourceUrl` are function parameters. `getSignature` and the hashing of the essay are not part of this model.
- `pdfSerializeEditor`, `pdfAddEditorToLayerNoFocus`, the event bus (`pdfOn`/`pdfOff`), `pdfReady` polling, `updateSelection`, `switchPageWhenReady`, `createOrUpdateEntry`, `deleteEntry`, the random `uuid` and the table of editor actions are left out. Whether a page layer is rendered is an input, and an action's body is a label recorded in an execution log.
- dist/annotate-pdf/pdfjs-api.js is not part of this model: it is message passing between frames and promise chaining.
- src/lib/TinyHelper.js is not part of this model: it is editor configuration and DOM styling.
- The DOM and geometry parts of the text marker are left out: labels, `scrollToMark`, `setCaretToMark` and the IntersectionObserver. Whether a mark is visible is a `visible` parameter. The `w` and `p` attributes of the selected words are taken to be integers.
- The floating-point zoom steps of the preferences store and the `tinyContentStyle` CSS strings of the settings store are left out.
- `loadFiles` (preloading resource files) is left out.
- `diff` does not model properties inherited through the prototype chain, nor the `constructor.name` of values that are not arrays. When an object is compared with an array, each key is read on both sides (dist/annotate-pdf/iframe-bridge.js:525-530), so the object's `length` is compared with the array's length; the model reads an array's `length` as undefined there.
- A keys index of the notes, annotations or resources store that is not an array, or an array holding an element that is not a string, is read as an empty index; the source would use such elements as keys after converting them to strings.
- AlertsStore.AlertsStore.LoadFromStorage: a stored alert index that is not an array leaves the `keys` field as it was, because the field holds a list; the source keeps the parsed value itself. The alerts are read as the source reads them.
- Api.ApiStore.FinishSave: the answer to a sending is assumed to carry its data; an answer whose `response.data` is null or undefined, which throws at `response.data.notes` and ends like a failed sending (src/store/api.js:455), is not modelled.
- ResourcesStore.ReloadKeepsResources: assumes that no resource key is "keys" or "activeKey", the names of the store's own storage items.
- The records are immutable datatypes, and `setData` returns the updated record instead of changing it in place. So this model shows no aliasing between records. The stores always clone or rebuild records, so no store shares one.
- `Note.isEqual` loops over the note's own properties. It is modelled as a predicate that compares the three properties with `===`.
- The order in which the keys of a returned object are listed is not modelled: objects are maps.
- `fromEditor`, the logging parameter of the notes store's `updateContent`, is left out.
- JS numbers are exact rationals or NaN. Infinity, rounding to doubles and the exponent notation of `String` and `Number` are not modelled; `String` of a non-integral number prints at most 20 decimals.

## Findings

| source | as written | input that shows it | evidently intended | confidence | as-written member | corrected member |
|---|---|---|---|---|---|---|
| src/store/api.js:203-216 | at start-up, unsent edits are looked for with `countChanges` of the changes store, which has not been loaded from storage yet and is always empty then | local storage holds notes change markers; the in-memory changes store is empty; the context is new, or the server sends no hash: `init` loads from the backend, which replaces the stored settings and task and, once the task store's loads return, clears the stored markers | count the change markers kept in storage (`hasChangesInStorage`, documented as called from the api store at start-up) | high, not executed | Api.InitIgnoresStoredMarkers | Api.CorrectedInitKeepsStoredMarkers |
| src/store/resources.js:78-128 | `loadFromStorage` reads the index under `'resourceKeys'`, but `loadFromData` writes it under `'keys'` | `loadFromData` with one resource, then `loadFromStorage`: the store reloads no resources | read the index under the name it was written under | high, not executed | ResourcesStore.ReloadLosesResources | ResourcesStore.ReloadKeepsResources |
| dist/annotate-pdf/iframe-bridge.js:264-324 | `returnPending` empties the queue, including the `null` placeholder of the action that is running; when that action settles, `dequeue` drops the next action's slot | `sync("create")` with no layer; `layerRendered` on that page; `returnPending`; `sync("update")`; the create settles, and the update is dropped without ever running | keep the placeholder of the running action, and cancel only the waiting ones | medium, not executed | BridgeSync.LostAction | BridgeSync.KeptAction |
| src/store/api.js:63-65 | the `isSending` getter computes `lastSendingTry > 0` but has no `return`, so it is always undefined and `isAllSent` ignores a running request | `lastSendingTry > 0`, no open essay saving and no change marker: `isAllSent` is true while a request is running | return the comparison | high, not executed | Api.ApiStore.AllSentWhileSending | Api.ApiStore.AllSentMeansIdle |
| src/store/api.js:581-588 | `finalize`, and loading from the backend (src/store/api.js:321-329), call `clearStorage` on the layout store, which has no such action, so the call throws there | `finalize` after a successful final sending: the settings, task, resources and essay stores are cleared, then the call throws, so the alerts and the local storage are not cleared and the writer is not sent to the return url; loading from the backend would stop at the same call, after the markers are cleared and before the start is sent, once the task store's loads return | skip the layout store, or give it a `clearStorage` | medium, not executed | Api.FinalizeThrowsAtLayout | Api.CorrectedFinalizeCompletes |
| src/store/task.js:64-66 | each load of the task store (also src/store/task.js:78-80, 100-102) ends with `apiStore.setInterval(...)`, but the api store has no `setInterval` action, so the call throws a TypeError after the load's work is done | `loadDataFromStorage`: the settings and the task are loaded, then the rejection ends it, so resources, notes, layout and markers are not loaded and the writer is not initialized; `loadDataFromBackend` stops the same way after settings and task; the update check answers false and skips the alerts | give the api store an action that starts the named interval | high, not executed | Api.StorageLoadThrowsAtTask | Api.CorrectedStorageLoadCompletes |
