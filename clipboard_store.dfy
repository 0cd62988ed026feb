// The clipboard store: the content last copied inside the application, and
// the decision whether a content may be pasted into an editor.

module ClipboardStore {
  import opened Js

  /** `text.replace(/[\s\n\r]+/g, '')`: the text with every whitespace character removed. */
  function Normalize(text: string): (r: string)
    ensures |r| <= |text|
    ensures forall i :: 0 <= i < |r| ==> !IsWhitespace(r[i])
    ensures forall c :: c in r <==> c in text && !IsWhitespace(c)
  {
    if |text| == 0 then ""
    else (if IsWhitespace(text[0]) then "" else [text[0]]) + Normalize(text[1..])
  }

  /** Normalising is filtering out the whitespace characters. */
  lemma {:induction false} NormalizeIsFilter(text: string)
    ensures Normalize(text) == Filter(text, c => !IsWhitespace(c))
  {
    if |text| > 0 {
      NormalizeIsFilter(text[1..]);
    }
  }

  /** Normalising works piece by piece. */
  lemma {:induction false} NormalizeConcat(a: string, b: string)
    ensures Normalize(a + b) == Normalize(a) + Normalize(b)
  {
    if |a| == 0 {
      assert a + b == b;
    } else {
      assert (a + b)[1..] == a[1..] + b;
      NormalizeConcat(a[1..], b);
    }
  }

  /** A text without whitespace is its own normal form. */
  lemma {:induction false} NormalizeClean(text: string)
    requires forall i :: 0 <= i < |text| ==> !IsWhitespace(text[i])
    ensures Normalize(text) == text
  {
    if |text| > 0 {
      NormalizeClean(text[1..]);
    }
  }

  /** A whitespace-only text normalises to the empty text. */
  lemma {:induction false} NormalizeBlank(text: string)
    requires forall i :: 0 <= i < |text| ==> IsWhitespace(text[i])
    ensures Normalize(text) == ""
  {
    if |text| > 0 {
      NormalizeBlank(text[1..]);
    }
  }

  /** Normalising twice is normalising once. */
  lemma NormalizeIdempotent(text: string)
    ensures Normalize(Normalize(text)) == Normalize(text)
  {
    NormalizeClean(Normalize(text));
  }

  /** `getPasteAllowed(content)`: pasting is allowed when the settings allow copying from
    * elsewhere, or when the content has the same text as the copied one up to whitespace.
    * `textOf` extracts the text of an HTML fragment (`innerText || textContent`). */
  function PasteAllowed(copyAllowed: Value, content: string, copied: string, textOf: string -> string): (r: bool)
    ensures Truthy(copyAllowed) ==> r
    ensures !Truthy(copyAllowed) ==> (r <==> Normalize(textOf(content)) == Normalize(textOf(copied)))
  {
    Truthy(copyAllowed) || Normalize(textOf(content)) == Normalize(textOf(copied))
  }

  /** Content whose text differs from the copied text only by inserted whitespace may always
    * be pasted. */
  lemma PasteWithExtraWhitespace(copyAllowed: Value, content: string, copied: string, textOf: string -> string,
                                 before: string, after: string)
    requires forall i :: 0 <= i < |before| ==> IsWhitespace(before[i])
    requires forall i :: 0 <= i < |after| ==> IsWhitespace(after[i])
    requires textOf(content) == before + textOf(copied) + after
    ensures PasteAllowed(copyAllowed, content, copied, textOf)
  {
    NormalizeConcat(before + textOf(copied), after);
    NormalizeConcat(before, textOf(copied));
    NormalizeBlank(before);
    NormalizeBlank(after);
  }

  class ClipboardStore {
    var content: string
    var showWarning: bool

    constructor()
      ensures content == "" && !showWarning
    {
      content, showWarning := "", false;
    }

    /** Whether a content may be pasted, given the `copy_allowed` setting. */
    predicate GetPasteAllowed(copyAllowed: Value, pasted: string, textOf: string -> string)
      reads this
    {
      PasteAllowed(copyAllowed, pasted, content, textOf)
    }

    /** The copied content itself may always be pasted back. */
    lemma PasteOwnContent(copyAllowed: Value, textOf: string -> string)
      ensures GetPasteAllowed(copyAllowed, content, textOf)
    {
    }

    method SetContent(copied: string)
      modifies this
      ensures content == copied && showWarning == old(showWarning)
    {
      content := copied;
    }

    method ShowWarning()
      modifies this
      ensures showWarning && content == old(content)
    {
      showWarning := true;
    }

    method HideWarning()
      modifies this
      ensures !showWarning && content == old(content)
    {
      showWarning := false;
    }
  }
}
