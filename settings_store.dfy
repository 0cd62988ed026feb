// The settings store: the editor settings of the writing task, kept in the
// "writer-settings" storage, and the editor configuration looked up from them.

module SettingsStore {
  import opened Js

  const SETTINGS_ITEM := "settings"

  const TOOLBAR_FULL := "zoomOut zoomIn | undo redo | styleselect | bold italic underline | bullist numlist | removeformat | charmap | paste"
  const TOOLBAR_MEDIUM := "zoomOut zoomIn | undo redo | bold italic underline | bullist numlist | removeformat | charmap | paste"
  const TOOLBAR_MINIMAL := "zoomOut zoomIn | undo redo | bold italic underline | removeformat | charmap | paste"
  const TOOLBAR_NONE := "zoomOut zoomIn | undo redo | charmap |paste"

  const ELEMENTS_FULL := "p/div,br,strong/b,em/i,u,ol,ul,li,h1,h2,h3,h4,h5,h6,pre"
  const ELEMENTS_MEDIUM := "p/div,br,strong/b,em/i,u,ol,ul,li"
  const ELEMENTS_MINIMAL := "p/div,p/li,br,strong/b,em/i,u"
  const ELEMENTS_NONE := "p/div,p/li,br"

  /** The formatting options and headline schemes the lookups recognise. */
  const FORMATTING_OPTIONS: seq<string> := ["full", "medium", "minimal", "none"]
  const HEADLINE_SCHEMES: seq<string> := ["single", "three", "numeric", "edutiek"]

  /** An entry of the editor's style menu: a title and the block format or block element it applies. */
  datatype Style = Format(title: string, format: string) | Block(title: string, block: string)

  /** The `case` labels of a `switch`, compared with `===`. */
  predicate IsOneOf(v: Value, labels: seq<string>)
  {
    v.Str? && v.s in labels
  }

  /** `tinyToolbar` */
  function TinyToolbar(formattingOptions: Value): (r: string)
    ensures !IsOneOf(formattingOptions, ["full", "medium", "minimal"]) ==> r == TOOLBAR_NONE
  {
    match formattingOptions
    case Str("full") => TOOLBAR_FULL
    case Str("medium") => TOOLBAR_MEDIUM
    case Str("minimal") => TOOLBAR_MINIMAL
    case _ => TOOLBAR_NONE
  }

  /** `tinyValidElements` */
  function TinyValidElements(formattingOptions: Value): (r: string)
    ensures !IsOneOf(formattingOptions, ["full", "medium", "minimal"]) ==> r == ELEMENTS_NONE
  {
    match formattingOptions
    case Str("full") => ELEMENTS_FULL
    case Str("medium") => ELEMENTS_MEDIUM
    case Str("minimal") => ELEMENTS_MINIMAL
    case _ => ELEMENTS_NONE
  }

  /** Different formatting options give different toolbars; anything else gets the toolbar of "none". */
  lemma ToolbarsDistinct(a: Value, b: Value)
    ensures IsOneOf(a, FORMATTING_OPTIONS) && IsOneOf(b, FORMATTING_OPTIONS) && a != b ==> TinyToolbar(a) != TinyToolbar(b)
    ensures !IsOneOf(a, FORMATTING_OPTIONS) ==> TinyToolbar(a) == TinyToolbar(Str("none"))
  {
    assert |TOOLBAR_NONE| < |TOOLBAR_MINIMAL| < |TOOLBAR_MEDIUM| < |TOOLBAR_FULL|;
  }

  /** Only the full formatting option allows headings and preformatted text, and every option but
    * "none" allows more than paragraphs and line breaks. */
  lemma ElementsFullOnly(v: Value)
    ensures TinyValidElements(v) == ELEMENTS_FULL <==> v == Str("full")
    ensures TinyValidElements(v) != ELEMENTS_NONE <==> IsOneOf(v, ["full", "medium", "minimal"])
  {
    assert |ELEMENTS_NONE| < |ELEMENTS_MINIMAL| < |ELEMENTS_MEDIUM| < |ELEMENTS_FULL|;
  }

  const PARAGRAPH := Format("Absatz", "p")
  const PREFORMATTED := Format("Maschinenschrift", "pre")
  const LIST_ITEM := Block("Listenelement", "li")

  /** The heading styles of levels 1 to n, titled by level. */
  function Headings(n: nat): (r: seq<Style>)
    requires 1 <= n <= 6
    ensures |r| == n
    ensures forall i :: 0 <= i < n ==> r[i].Format? && r[i].format == ["h1", "h2", "h3", "h4", "h5", "h6"][i]
  {
    var titles := ["Überschrift 1", "Überschrift 2", "Überschrift 3", "Überschrift 4", "Überschrift 5", "Überschrift 6"];
    var tags := ["h1", "h2", "h3", "h4", "h5", "h6"];
    seq(n, i requires 0 <= i < n => Format(titles[i], tags[i]))
  }

  /** `tinyStyles`: paragraph, the headings of the scheme, preformatted text and list item. */
  function TinyStyles(headlineScheme: Value): (r: seq<Style>)
    ensures |r| == (if headlineScheme == Str("single") then 4 else if headlineScheme == Str("three") then 6 else 9)
    ensures r[0] == PARAGRAPH && r[|r| - 2] == PREFORMATTED && r[|r| - 1] == LIST_ITEM
    ensures forall i :: 1 <= i < |r| - 2 ==> r[i].Format? && r[i].format in ["h1", "h2", "h3", "h4", "h5", "h6"]
  {
    match headlineScheme
    case Str("single") => [PARAGRAPH, Format("Überschrift", "h1"), PREFORMATTED, LIST_ITEM]
    case Str("three") => [PARAGRAPH] + Headings(3) + [PREFORMATTED, LIST_ITEM]
    case _ => [PARAGRAPH] + Headings(6) + [PREFORMATTED, LIST_ITEM]
  }

  /** `tinyFormats`: underline is an inline `u` that removal strips completely. */
  function TinyFormats(): map<string, map<string, string>>
  {
    map["underline" := map["inline" := "u", "remove" := "all"]]
  }

  /** `contentClass` */
  function ContentClass(headlineScheme: Value): (r: string)
    ensures r != "" <==> IsOneOf(headlineScheme, HEADLINE_SCHEMES)
    ensures r != "" ==> r == "headlines-" + headlineScheme.s
  {
    match headlineScheme
    case Str("single") => "headlines-single"
    case Str("three") => "headlines-three"
    case Str("numeric") => "headlines-numeric"
    case Str("edutiek") => "headlines-edutiek"
    case _ => ""
  }

  /** `'#' + color` for a set colour, '' otherwise. */
  function ColorCss(color: Value): (r: string)
    ensures r == "" <==> !Truthy(color)
    ensures r != "" ==> r[0] == '#' && r[1..] == ToStr(color)
  {
    if Truthy(color) then "#" + ToStr(color) else ""
  }

  /** `'color: #' + color + ';'` for a set colour, '' otherwise. */
  function ColorRuleCss(color: Value): (r: string)
    ensures r == "" <==> !Truthy(color)
    ensures r != "" ==> r == "color: " + ColorCss(color) + ";"
  {
    if Truthy(color) then "color: #" + ToStr(color) + ";" else ""
  }

  class SettingsStore {
    var headlineScheme: Value
    var formattingOptions: Value
    var noticeBoards: Value
    var copyAllowed: Value
    var primaryColor: Value
    var primaryTextColor: Value
    var allowSpellcheck: Value
    /** The "writer-settings" storage. */
    var storage: map<string, Value>

    constructor(storage: map<string, Value>)
      ensures headlineScheme == Null && formattingOptions == Null && noticeBoards == Int(0)
      ensures copyAllowed == Bool(false) && primaryColor == Null && primaryTextColor == Null
      ensures allowSpellcheck == Bool(false) && this.storage == storage
    {
      headlineScheme, formattingOptions, noticeBoards := Null, Null, Int(0);
      copyAllowed, primaryColor, primaryTextColor, allowSpellcheck := Bool(false), Null, Null, Bool(false);
      this.storage := storage;
    }

    /** `notice_boards > 0`: a number is compared as it is, null and undefined give no
      * notice boards. */
    predicate HasNotes()
      reads this
      ensures noticeBoards.Num? && noticeBoards.n.Finite? ==> (HasNotes() <==> noticeBoards.n.r > 0.0)
      ensures noticeBoards.Num? && noticeBoards.n.NaN? ==> !HasNotes()
      ensures noticeBoards.Null? || noticeBoards.Undefined? ==> !HasNotes()
    {
      NumberLess(Finite(0.0), ToNumber(noticeBoards))
    }

    function PrimaryColorCss(): (r: string)
      reads this
      ensures r == "" <==> !Truthy(primaryColor)
      ensures r != "" ==> r[0] == '#' && r[1..] == ToStr(primaryColor)
    {
      ColorCss(primaryColor)
    }

    function PrimaryTextColorCss(): (r: string)
      reads this
      ensures r == "" <==> !Truthy(primaryTextColor)
      ensures r != "" ==> r[0] == '#' && r[1..] == ToStr(primaryTextColor)
    {
      ColorCss(primaryTextColor)
    }

    /** The css rule for the text colour: the colour's css inside `color: …;`, or ''. */
    function PrimaryTextColorFullCss(): (r: string)
      reads this
      ensures r == "" <==> !Truthy(primaryTextColor)
      ensures r != "" ==> r == "color: " + PrimaryTextColorCss() + ";"
    {
      ColorRuleCss(primaryTextColor)
    }

    /** The seven settings of a data object. */
    function Record(): map<string, Value>
      reads this
    {
      map["headline_scheme" := headlineScheme, "formatting_options" := formattingOptions,
        "notice_boards" := noticeBoards, "copy_allowed" := copyAllowed, "primary_color" := primaryColor,
        "primary_text_color" := primaryTextColor, "allow_spellcheck" := allowSpellcheck]
    }

    /** The seven settings are those of the data object with fields `f`. */
    predicate Took(f: map<string, Value>)
      reads this
    {
      headlineScheme == Get(f, "headline_scheme") && formattingOptions == Get(f, "formatting_options") &&
      noticeBoards == Get(f, "notice_boards") && copyAllowed == Get(f, "copy_allowed") &&
      primaryColor == Get(f, "primary_color") && primaryTextColor == Get(f, "primary_text_color") &&
      allowSpellcheck == Get(f, "allow_spellcheck")
    }

    /** Take the seven settings from the data; reading a property of null or undefined throws
      * before anything is assigned. */
    method SetData(data: Value) returns (ok: bool)
      modifies this
      ensures ok <==> IsSet(data)
      ensures storage == old(storage)
      ensures ok ==> Took(Fields(data))
      ensures !ok ==> Record() == old(Record())
    {
      if !IsSet(data) {
        return false;
      }
      var f := Fields(data);
      headlineScheme, formattingOptions, noticeBoards := Get(f, "headline_scheme"), Get(f, "formatting_options"), Get(f, "notice_boards");
      copyAllowed, primaryColor, primaryTextColor := Get(f, "copy_allowed"), Get(f, "primary_color"), Get(f, "primary_text_color");
      allowSpellcheck := Get(f, "allow_spellcheck");
      ok := true;
    }

    method ClearStorage()
      modifies this
      ensures storage == map[] && Record() == old(Record())
    {
      storage := map[];
    }

    /** Read the stored settings; a missing item leaves the settings as they are. */
    method LoadFromStorage()
      modifies this
      ensures storage == old(storage)
      ensures IsSet(Get(storage, SETTINGS_ITEM)) ==>
        Took(Fields(Get(storage, SETTINGS_ITEM)))
      ensures !IsSet(Get(storage, SETTINGS_ITEM)) ==> Record() == old(Record())
    {
      var _ := SetData(Get(storage, SETTINGS_ITEM));
    }

    /** Store the settings data as given, then take it over. */
    method LoadFromData(data: Value)
      modifies this
      ensures storage == old(storage)[SETTINGS_ITEM := Persisted(data)]
      ensures IsSet(data) ==> Took(Fields(data))
      ensures !IsSet(data) ==> Record() == old(Record())
    {
      storage := storage[SETTINGS_ITEM := Persisted(data)];
      var _ := SetData(data);
    }
  }
}
