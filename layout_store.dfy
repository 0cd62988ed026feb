// The layout store: which of the two columns is expanded and what each
// column shows, kept in the "layout" storage.

module LayoutStore {
  import opened Js

  const LAYOUT_ITEM := "layout"

  const LEFT := Str("left")
  const RIGHT := Str("right")
  const NONE := Str("none")
  const INSTRUCTIONS := Str("instructions")
  const RESOURCES := Str("resources")
  const ESSAY := Str("essay")

  /** No column value is both "left" and "right". */
  lemma LeftAndRightExclusive(v: Value)
    ensures !(LooseEq(v, LEFT) && LooseEq(v, RIGHT))
  {
    WordIsNaN("left");
    WordIsNaN("right");
    LooseEqNonNumeric(v, "left");
    LooseEqNonNumeric(v, "right");
  }

  class LayoutStore {
    /** 'left', 'right' or 'none' */
    var expandedColumn: Value
    var leftContent: Value
    var rightContent: Value
    /** The "layout" storage. */
    var storage: map<string, Value>

    constructor(storage: map<string, Value>)
      ensures expandedColumn == LEFT && leftContent == INSTRUCTIONS && rightContent == ESSAY
      ensures this.storage == storage
    {
      expandedColumn, leftContent, rightContent := LEFT, INSTRUCTIONS, ESSAY;
      this.storage := storage;
    }

    predicate IsLeftExpanded()
      reads this
    {
      LooseEq(expandedColumn, LEFT)
    }

    predicate IsRightExpanded()
      reads this
    {
      LooseEq(expandedColumn, RIGHT)
    }

    predicate IsLeftVisible()
      reads this
    {
      !LooseEq(expandedColumn, RIGHT)
    }

    predicate IsRightVisible()
      reads this
    {
      !LooseEq(expandedColumn, LEFT)
    }

    predicate IsInstructionsSelected()
      reads this
    {
      LooseEq(leftContent, INSTRUCTIONS)
    }

    predicate IsResourcesSelected()
      reads this
    {
      LooseEq(leftContent, RESOURCES)
    }

    predicate IsInstructionsVisible()
      reads this
    {
      !LooseEq(expandedColumn, RIGHT) && LooseEq(leftContent, INSTRUCTIONS)
    }

    predicate IsResourcesVisible()
      reads this
    {
      !LooseEq(expandedColumn, RIGHT) && LooseEq(leftContent, RESOURCES)
    }

    predicate IsEssayVisible()
      reads this
    {
      !LooseEq(expandedColumn, LEFT) && LooseEq(rightContent, ESSAY)
    }

    /** The record written to the storage. */
    function Record(): Value
      reads this
    {
      Obj(map["expandedColumn" := expandedColumn, "leftContent" := leftContent, "rightContent" := rightContent])
    }

    /** Whatever the column value, at least one column is visible. */
    lemma SomeColumnVisible()
      ensures IsLeftVisible() || IsRightVisible()
    {
      LeftAndRightExclusive(expandedColumn);
    }

    /** Each content is visible exactly when its column is visible and it is selected. */
    lemma VisibleIsColumnAndContent()
      ensures IsInstructionsVisible() <==> IsLeftVisible() && IsInstructionsSelected()
      ensures IsResourcesVisible() <==> IsLeftVisible() && IsResourcesSelected()
      ensures IsEssayVisible() <==> IsRightVisible() && LooseEq(rightContent, ESSAY)
    {
    }

    method SaveToStorage()
      modifies this
      ensures storage == old(storage)[LAYOUT_ITEM := Record()]
      ensures expandedColumn == old(expandedColumn) && leftContent == old(leftContent) && rightContent == old(rightContent)
    {
      storage := storage[LAYOUT_ITEM := Record()];
    }

    /** Read the stored record; a missing item reads as null, whose properties throw. */
    method LoadFromStorage()
      modifies this
      ensures storage == old(storage)
      ensures var data := Get(storage, LAYOUT_ITEM);
        if IsSet(data) then
          expandedColumn == Get(Fields(data), "expandedColumn") && leftContent == Get(Fields(data), "leftContent") &&
          rightContent == Get(Fields(data), "rightContent")
        else
          expandedColumn == old(expandedColumn) && leftContent == old(leftContent) && rightContent == old(rightContent)
    {
      var data := Get(storage, LAYOUT_ITEM);
      if IsSet(data) {
        var f := Fields(data);
        expandedColumn, leftContent, rightContent := Get(f, "expandedColumn"), Get(f, "leftContent"), Get(f, "rightContent");
      }
    }

    /** Show the left column, switching the expansion to it only when it is hidden. */
    method SetLeftVisible()
      modifies this
      ensures IsLeftVisible()
      ensures old(IsLeftVisible()) ==> expandedColumn == old(expandedColumn) && storage == old(storage)
      ensures !old(IsLeftVisible()) ==> expandedColumn == LEFT && storage == old(storage)[LAYOUT_ITEM := Record()]
      ensures leftContent == old(leftContent) && rightContent == old(rightContent)
    {
      if !IsLeftVisible() {
        expandedColumn := LEFT;
        SaveToStorage();
      }
    }

    /** Show the right column, switching the expansion to it only when it is hidden. */
    method SetRightVisible()
      modifies this
      ensures IsRightVisible()
      ensures old(IsRightVisible()) ==> expandedColumn == old(expandedColumn) && storage == old(storage)
      ensures !old(IsRightVisible()) ==> expandedColumn == RIGHT && storage == old(storage)[LAYOUT_ITEM := Record()]
      ensures leftContent == old(leftContent) && rightContent == old(rightContent)
    {
      if !IsRightVisible() {
        expandedColumn := RIGHT;
        SaveToStorage();
      }
    }

    method SetLeftExpanded(expanded: bool)
      modifies this
      ensures expandedColumn == (if expanded then LEFT else NONE)
      ensures expanded <==> IsLeftExpanded()
      ensures IsLeftVisible() && IsRightVisible() <==> !expanded
      ensures leftContent == old(leftContent) && rightContent == old(rightContent)
      ensures storage == old(storage)[LAYOUT_ITEM := Record()]
    {
      expandedColumn := if expanded then LEFT else NONE;
      SaveToStorage();
    }

    method SetRightExpanded(expanded: bool)
      modifies this
      ensures expandedColumn == (if expanded then RIGHT else NONE)
      ensures expanded <==> IsRightExpanded()
      ensures IsLeftVisible() && IsRightVisible() <==> !expanded
      ensures leftContent == old(leftContent) && rightContent == old(rightContent)
      ensures storage == old(storage)[LAYOUT_ITEM := Record()]
    {
      expandedColumn := if expanded then RIGHT else NONE;
      SaveToStorage();
    }

    /** Show the instructions in the left column. */
    method ShowInstructions()
      modifies this
      ensures IsInstructionsVisible()
      ensures leftContent == INSTRUCTIONS && rightContent == old(rightContent)
      ensures expandedColumn == if old(IsLeftVisible()) then old(expandedColumn) else LEFT
      ensures storage == old(storage)[LAYOUT_ITEM := Record()]
    {
      SetLeftVisible();
      leftContent := INSTRUCTIONS;
      SaveToStorage();
    }

    /** Show the resources in the left column. */
    method ShowResources()
      modifies this
      ensures IsResourcesVisible()
      ensures leftContent == RESOURCES && rightContent == old(rightContent)
      ensures expandedColumn == if old(IsLeftVisible()) then old(expandedColumn) else LEFT
      ensures storage == old(storage)[LAYOUT_ITEM := Record()]
    {
      SetLeftVisible();
      leftContent := RESOURCES;
      SaveToStorage();
    }

    /** Show the essay in the right column. */
    method ShowEssay()
      modifies this
      ensures IsEssayVisible()
      ensures rightContent == ESSAY && leftContent == old(leftContent)
      ensures expandedColumn == if old(IsRightVisible()) then old(expandedColumn) else RIGHT
      ensures storage == old(storage)[LAYOUT_ITEM := Record()]
    {
      SetRightVisible();
      rightContent := ESSAY;
      SaveToStorage();
    }
  }
}
