// The text marker of the essay and instruction views: it keeps the list of
// marks shown on the words of a text, finds the words of a selection, and
// reports the first mark scrolled into view. Words carry their absolute
// number `w` and the number `p` of their paragraph.

module TextMarker {

  /** A marked range of words, shown with a css class. */
  datatype Mark = Mark(cssClass: string, firstWord: int, lastWord: int)

  /** A word of the text as the selection sees it: its numbers and whether the selection
    * contains it, fully or partly. */
  datatype Word = Word(w: int, p: int, selected: bool)

  /** What `getSelectionData` finds: the first and last selected word and the paragraph of
    * the first. */
  datatype Selection = Selection(firstWord: int, lastWord: int, parentNumber: int, isCollapsed: bool)

  // ---------------------------------------------------------------------
  // The mark list

  /** `marks.filter(m => m.cssClass != c || m.firstWord != f || m.lastWord != l)` */
  function Without(marks: seq<Mark>, m: Mark): (r: seq<Mark>)
    ensures |r| <= |marks|
    ensures forall x :: x in r <==> x in marks && x != m
  {
    if |marks| == 0 then []
    else (if marks[0] != m then [marks[0]] else []) + Without(marks[1..], m)
  }

  /** `marks.filter(m => m.cssClass != c)` */
  function WithoutClass(marks: seq<Mark>, c: string): (r: seq<Mark>)
    ensures |r| <= |marks|
    ensures forall x :: x in r <==> x in marks && x.cssClass != c
  {
    if |marks| == 0 then []
    else (if marks[0].cssClass != c then [marks[0]] else []) + WithoutClass(marks[1..], c)
  }

  lemma {:induction false} WithoutAppend(a: seq<Mark>, b: seq<Mark>, m: Mark)
    ensures Without(a + b, m) == Without(a, m) + Without(b, m)
  {
    if |a| == 0 {
      assert a + b == b;
    } else {
      assert (a + b)[1..] == a[1..] + b;
      WithoutAppend(a[1..], b, m);
    }
  }

  /** Removing a mark that is not in the list keeps the list as it is. */
  lemma {:induction false} WithoutAbsent(marks: seq<Mark>, m: Mark)
    requires m !in marks
    ensures Without(marks, m) == marks
  {
    if |marks| > 0 {
      WithoutAbsent(marks[1..], m);
    }
  }

  /** Hiding the mark just shown takes the list back to what it was, provided the same mark
    * was not shown before. */
  lemma ShowThenHide(marks: seq<Mark>, m: Mark)
    requires m !in marks
    ensures Without(marks + [m], m) == marks
  {
    WithoutAppend(marks, [m], m);
    WithoutAbsent(marks, m);
    assert Without([m], m) == [];
  }

  /** `x` sits at `i` and `y` at the later `j` of `marks`. */
  predicate InOrder(marks: seq<Mark>, i: int, j: int, x: Mark, y: Mark)
  {
    0 <= i < j < |marks| && marks[i] == x && marks[j] == y
  }

  /** Removal keeps the order of the remaining marks (it is a filter). */
  lemma {:induction false} WithoutKeepsOrder(marks: seq<Mark>, m: Mark, i: int, j: int)
    requires 0 <= i < j < |marks| && marks[i] != m && marks[j] != m
    ensures exists i', j' :: InOrder(Without(marks, m), i', j', marks[i], marks[j])
  {
    var head := if marks[0] != m then [marks[0]] else [];
    var rest := Without(marks[1..], m);
    assert Without(marks, m) == head + rest;
    if i == 0 {
      assert marks[j] in rest by {
        assert marks[1..][j - 1] == marks[j];
      }
      var j' :| 0 <= j' < |rest| && rest[j'] == marks[j];
      assert InOrder(Without(marks, m), 0, 1 + j', marks[i], marks[j]);
    } else {
      WithoutKeepsOrder(marks[1..], m, i - 1, j - 1);
      var i', j' :| InOrder(rest, i', j', marks[1..][i - 1], marks[1..][j - 1]);
      assert InOrder(Without(marks, m), |head| + i', |head| + j', marks[i], marks[j]);
    }
  }

  // ---------------------------------------------------------------------
  // The selection

  /** The first word `getSelectionData` finds, with its paragraph: a selected word becomes
    * the first when none is set yet (0) or it comes before the first. */
  function Lowest(words: seq<Word>): (int, int)
  {
    if |words| == 0 then (0, 0)
    else
      var (first, parent) := Lowest(words[..|words| - 1]);
      var word := words[|words| - 1];
      if word.selected && (first == 0 || word.w < first) then (word.w, word.p) else (first, parent)
  }

  /** The last word `getSelectionData` finds: a selected word after it replaces it. */
  function Highest(words: seq<Word>): int
  {
    if |words| == 0 then 0
    else
      var last := Highest(words[..|words| - 1]);
      var word := words[|words| - 1];
      if word.selected && word.w > last then word.w else last
  }

  /** The selection data `getSelectionData` returns for the words of a selection. */
  function SelectionOf(words: seq<Word>, isCollapsed: bool): Selection
  {
    Selection(Lowest(words).0, Highest(words), Lowest(words).1, isCollapsed)
  }

  /** The words are numbered from 1, as the text renders them. */
  predicate Numbered(words: seq<Word>)
  {
    forall i :: 0 <= i < |words| ==> words[i].w > 0
  }

  predicate AnySelected(words: seq<Word>)
  {
    exists i :: 0 <= i < |words| && words[i].selected
  }

  /** `words[i]` is the first selected word with the smallest number. */
  predicate FirstLowest(words: seq<Word>, i: int)
  {
    0 <= i < |words| && words[i].selected &&
    (forall j :: 0 <= j < |words| && words[j].selected ==> words[i].w <= words[j].w) &&
    (forall j :: 0 <= j < i && words[j].selected ==> words[j].w > words[i].w)
  }

  /** `words[k]` is a selected word with the largest number. */
  predicate HighestAt(words: seq<Word>, k: int)
  {
    0 <= k < |words| && words[k].selected &&
    forall j :: 0 <= j < |words| && words[j].selected ==> words[j].w <= words[k].w
  }

  /** On numbered words, the first word found is the smallest selected number, with the
    * paragraph of the first word that has it; with nothing selected both are 0. */
  lemma {:induction false} LowestIsMin(words: seq<Word>)
    requires Numbered(words)
    ensures !AnySelected(words) ==> Lowest(words) == (0, 0)
    ensures AnySelected(words) ==> exists i :: FirstLowest(words, i) && Lowest(words) == (words[i].w, words[i].p)
    decreases |words|
  {
    if |words| > 0 {
      var n := |words| - 1;
      var init := words[..n];
      assert forall j :: 0 <= j < n ==> init[j] == words[j];
      LowestIsMin(init);
      var word := words[n];
      if AnySelected(init) {
        var i :| FirstLowest(init, i) && Lowest(init) == (init[i].w, init[i].p);
        var i' := if word.selected && word.w < init[i].w then n else i;
        assert FirstLowest(words, i');
      } else if word.selected {
        assert FirstLowest(words, n);
      } else {
        assert !AnySelected(words);
      }
    }
  }

  /** On numbered words, the last word found is the largest selected number, and 0 with
    * nothing selected. */
  lemma {:induction false} HighestIsMax(words: seq<Word>)
    requires Numbered(words)
    ensures !AnySelected(words) ==> Highest(words) == 0
    ensures AnySelected(words) ==> exists k :: HighestAt(words, k) && Highest(words) == words[k].w
    decreases |words|
  {
    if |words| > 0 {
      var n := |words| - 1;
      var init := words[..n];
      assert forall j :: 0 <= j < n ==> init[j] == words[j];
      HighestIsMax(init);
      var word := words[n];
      if AnySelected(init) {
        var k :| HighestAt(init, k) && Highest(init) == init[k].w;
        var k' := if word.selected && word.w > init[k].w then n else k;
        assert HighestAt(words, k');
      } else if word.selected {
        assert HighestAt(words, n);
      } else {
        assert !AnySelected(words);
      }
    }
  }

  /** A word numbered 0 would be taken for "no first word yet": the next selected word
    * replaces it. The rendered text numbers its words from 1. */
  lemma ZeroIsNoFirstWord()
    ensures Lowest([Word(5, 1, true), Word(0, 1, true), Word(7, 2, true)]) == (7, 2)
  {
    var words := [Word(5, 1, true), Word(0, 1, true), Word(7, 2, true)];
    assert words[..2] == [Word(5, 1, true), Word(0, 1, true)];
    assert words[..2][..1] == [Word(5, 1, true)];
    assert words[..2][..1][..0] == [];
    assert Lowest(words[..2][..1]) == (5, 1);
    assert Lowest(words[..2]) == (0, 1);
  }

  /** `getSelectionData`: the scan over the words of the selection's first range. Without a
    * range, `getRangeAt(0)` throws before the test for a missing range is reached (None, the
    * exception), so the method never returns `{}`; a missing selection throws the same way. */
  method GetSelectionData(hasRange: bool, words: seq<Word>, isCollapsed: bool) returns (r: Option<Selection>)
    ensures r.None? <==> !hasRange
    ensures r.Some? ==> r.value == SelectionOf(words, isCollapsed)
  {
    if !hasRange {
      return None;
    }
    var first, last, parent := 0, 0, 0;
    for i := 0 to |words|
      invariant (first, parent) == Lowest(words[..i]) && last == Highest(words[..i])
    {
      assert words[..i + 1][..i] == words[..i];
      var word := words[i];
      if word.selected {
        if first == 0 || word.w < first {
          first := word.w;
          parent := word.p;
        }
        if word.w > last {
          last := word.w;
        }
      }
    }
    assert words[..|words|] == words;
    return Some(Selection(first, last, parent, isCollapsed));
  }

  datatype Option<T> = None | Some(value: T)

  /** `selectionHandler` calls `onSelection` only when both ends of the selection are set:
    * `{}` has neither. */
  predicate NotifiesSelection(r: Option<Selection>)
  {
    r.Some? && r.value.firstWord > 0 && r.value.lastWord > 0
  }

  /** On numbered words, a selection is reported exactly when it contains a word. */
  lemma SelectionReported(words: seq<Word>, isCollapsed: bool)
    requires Numbered(words)
    ensures NotifiesSelection(Some(SelectionOf(words, isCollapsed))) <==> AnySelected(words)
  {
    LowestIsMin(words);
    HighestIsMax(words);
  }

  // ---------------------------------------------------------------------
  // The first visible mark

  /** The scan of `intersectionHandler`: a visible mark becomes the first when none is set
    * yet (0) or it starts before the first. */
  function FirstVisible(marks: seq<Mark>, visible: (int, int) -> bool): int
  {
    if |marks| == 0 then 0
    else
      var first := FirstVisible(marks[..|marks| - 1], visible);
      var m := marks[|marks| - 1];
      if (first == 0 || m.firstWord < first) && visible(m.firstWord, m.lastWord) then m.firstWord else first
  }

  predicate IsVisible(m: Mark, visible: (int, int) -> bool)
  {
    visible(m.firstWord, m.lastWord)
  }

  /** With marks starting at numbered words, the first visible word is the smallest start of a
    * visible mark, and 0 when no mark is visible. */
  lemma {:induction false} FirstVisibleIsMin(marks: seq<Mark>, visible: (int, int) -> bool)
    requires forall i :: 0 <= i < |marks| ==> marks[i].firstWord > 0
    ensures (forall i :: 0 <= i < |marks| ==> !IsVisible(marks[i], visible)) ==> FirstVisible(marks, visible) == 0
    ensures (exists i :: 0 <= i < |marks| && IsVisible(marks[i], visible)) ==>
      exists i :: 0 <= i < |marks| && IsVisible(marks[i], visible) && marks[i].firstWord == FirstVisible(marks, visible) &&
        forall j :: 0 <= j < |marks| && IsVisible(marks[j], visible) ==> marks[i].firstWord <= marks[j].firstWord
    decreases |marks|
  {
    if |marks| > 0 {
      var n := |marks| - 1;
      var init := marks[..n];
      assert forall j :: 0 <= j < n ==> init[j] == marks[j];
      FirstVisibleIsMin(init, visible);
      var m := marks[n];
      if exists i :: 0 <= i < n && IsVisible(init[i], visible) {
        var i :| 0 <= i < n && IsVisible(init[i], visible) && init[i].firstWord == FirstVisible(init, visible) &&
          forall j :: 0 <= j < n && IsVisible(init[j], visible) ==> init[i].firstWord <= init[j].firstWord;
        var i' := if IsVisible(m, visible) && m.firstWord < init[i].firstWord then n else i;
        assert marks[i'].firstWord == FirstVisible(marks, visible);
      } else if IsVisible(m, visible) {
        assert marks[n].firstWord == FirstVisible(marks, visible);
      }
    }
  }

  class TextMarker {
    var marks: seq<Mark>

    /** The constructor's state; `Create` is the constructor with its check of the element. */
    constructor()
      ensures marks == []
    {
      marks := [];
    }

    /** `showMark(c, f, l)` appends exactly that mark. */
    method ShowMark(cssClass: string, firstWord: int, lastWord: int)
      modifies this
      ensures marks == old(marks) + [Mark(cssClass, firstWord, lastWord)]
    {
      marks := marks + [Mark(cssClass, firstWord, lastWord)];
    }

    /** `hideMark(c, f, l)` removes every mark equal to that one. */
    method HideMark(cssClass: string, firstWord: int, lastWord: int)
      modifies this
      ensures marks == Without(old(marks), Mark(cssClass, firstWord, lastWord))
    {
      marks := Without(marks, Mark(cssClass, firstWord, lastWord));
    }

    method HideAllMarksOfClass(cssClass: string)
      modifies this
      ensures marks == WithoutClass(old(marks), cssClass)
    {
      marks := WithoutClass(marks, cssClass);
    }

    method HideAllMarksAndLabels()
      modifies this
      ensures marks == []
    {
      marks := [];
    }

    /** `intersectionHandler`: the number reported to `onIntersection`, where `visible` is
      * whether the words of a range are in the scrolled window. */
    method IntersectionHandler(visible: (int, int) -> bool) returns (first: int)
      ensures first == FirstVisible(marks, visible)
    {
      first := 0;
      var ms := marks;
      for i := 0 to |ms|
        invariant first == FirstVisible(ms[..i], visible)
      {
        assert ms[..i + 1][..i] == ms[..i];
        var m := ms[i];
        if (first == 0 || m.firstWord < first) && visible(m.firstWord, m.lastWord) {
          first := m.firstWord;
        }
      }
      assert ms[..|ms|] == ms;
    }
  }

  /** `new TextMarker(element, ...)` throws without an anchor element. */
  method Create(hasElement: bool) returns (r: Option<TextMarker>)
    ensures r.None? <==> !hasElement
    ensures r.Some? ==> fresh(r.value) && r.value.marks == []
  {
    if !hasElement {
      return None;
    }
    var m := new TextMarker();
    return Some(m);
  }
}
