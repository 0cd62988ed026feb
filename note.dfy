// A writing note: the text of one notice board, numbered from 0.

module NoteData {
  import opened Js

  /** `last_change` is null until the note is first saved (server time, s). */
  datatype Note = Note(note_no: Number, note_text: string, last_change: Option<Number>)
  {
    function SetData(data: map<string, Value>): (r: Note)
      ensures r.note_no == if IsSet(Get(data, "note_no")) then ParseInt(Get(data, "note_no")) else note_no
      ensures r.note_text == if IsSet(Get(data, "note_text")) then ToStr(Get(data, "note_text")) else note_text
      ensures r.last_change == if IsSet(Get(data, "last_change")) then Some(ParseInt(Get(data, "last_change"))) else last_change
    {
      var no := Get(data, "note_no");
      var text := Get(data, "note_text");
      var time := Get(data, "last_change");
      Note(
        if IsSet(no) then ParseInt(no) else note_no,
        if IsSet(text) then ToStr(text) else note_text,
        if IsSet(time) then Some(ParseInt(time)) else last_change)
    }

    function GetData(): map<string, Value>
    {
      map[
        "note_no" := Num(note_no),
        "note_text" := Str(note_text),
        "last_change" := if last_change.Some? then Num(last_change.value) else Null]
    }

    function GetKey(): string
    {
      KeyForNo(Num(note_no))
    }

    /** `new Note(this.getData())` */
    function GetClone(): Note
    {
      New(GetData())
    }

    /** Every own property compared with `===`. */
    predicate IsEqual(other: Note)
    {
      NumberStrictEq(note_no, other.note_no) &&
      note_text == other.note_text &&
      (match (last_change, other.last_change)
       case (None, None) => true
       case (Some(a), Some(b)) => NumberStrictEq(a, b)
       case _ => false)
    }
  }

  const Default := Note(Finite(0.0), "", None)

  function New(data: map<string, Value>): Note
  {
    Default.SetData(data)
  }

  /** `'NOTE_' + note_no` */
  function KeyForNo(no: Value): string
  {
    "NOTE_" + ToStr(no)
  }

  /** The numbers a note built from data can carry: whole or NaN. */
  predicate WellFormed(n: Note)
  {
    IsWhole(n.note_no) && (n.last_change.Some? ==> IsWhole(n.last_change.value))
  }

  predicate HasNaN(n: Note)
  {
    n.note_no.NaN? || n.last_change == Some(NaN)
  }

  lemma NewWellFormed(data: map<string, Value>)
    ensures WellFormed(New(data))
  {
  }

  /** A clone has the same properties as the original. */
  lemma CloneIsCopy(n: Note)
    requires WellFormed(n)
    ensures n.GetClone() == n
  {
    ReadWhole(n.note_no);
    if n.last_change.Some? {
      ReadWhole(n.last_change.value);
    }
  }

  /** Without NaN, `isEqual` holds exactly between notes with the same properties. */
  lemma IsEqualIffSame(a: Note, b: Note)
    requires !HasNaN(a)
    ensures a.IsEqual(b) <==> a == b
  {
  }

  /** A clone is equal to its original unless a number of the note is NaN, in which case
    * `===` makes the note unequal to everything, its own clone included. */
  lemma CloneIsEqual(n: Note)
    requires WellFormed(n)
    ensures n.GetClone().IsEqual(n) <==> !HasNaN(n)
  {
    CloneIsCopy(n);
  }

  /** Note numbers give distinct keys. */
  lemma KeyForNoInjective(a: int, b: int)
    ensures KeyForNo(Int(a)) == KeyForNo(Int(b)) ==> a == b
  {
    assert (a as real).Floor == a && (b as real).Floor == b;
    if KeyForNo(Int(a)) == KeyForNo(Int(b)) {
      assert KeyForNo(Int(a))[5..] == IntToString(a);
      assert KeyForNo(Int(b))[5..] == IntToString(b);
      IntToStringInjective(a, b);
    }
  }

  /** Written as JSON and read back, a note without NaN is unchanged. */
  lemma PersistedRoundTrip(n: Note)
    requires WellFormed(n) && !HasNaN(n)
    ensures New(Fields(JsonCopy(Obj(n.GetData())))) == n
  {
    JsonCopyOfSafe(Obj(n.GetData()));
    CloneIsCopy(n);
  }
}
