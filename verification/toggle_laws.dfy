/**
 * Laws of the toggle commands: the decision table `toggleBlock` follows, list
 * kind switching, and exactly when toggling twice gives back the original state.
 */
module ToggleLaws {
  import opened Wrappers
  import opened Json
  import opened Slate
  import opened CustomEditor

  /** An alignment toggle sets or clears `align` only; type and list nesting stay. */
  lemma AlignToggleDecision(s: State, block: string)
    requires ListsWrapBlocks(s) && s.selection.Some? && IsAlign(block)
    ensures ToggledBlock(s, block).container == s.container
    ensures ToggledBlock(s, block).block.kind == s.block.kind
    ensures ToggledBlock(s, block).block.align == if s.block.align == Some(block) then None else Some(block)
  {
  }

  /**
   * A non-alignment toggle keeps `align`, sets the type to `paragraph` when
   * active, to `list-item` for a list and to the format itself otherwise, drops
   * the enclosing list, and wraps in a new list only for an inactive list format.
   */
  lemma TypeToggleDecision(s: State, block: string)
    requires ListsWrapBlocks(s) && s.selection.Some? && !IsAlign(block)
    ensures var isActive := s.block.kind == block || s.container == Some(block);
      && ToggledBlock(s, block).block.align == s.block.align
      && ToggledBlock(s, block).block.kind ==
           (if isActive then "paragraph" else if IsList(block) then "list-item" else block)
      && ToggledBlock(s, block).container == (if !isActive && IsList(block) then Some(block) else None)
  {
  }

  /** Toggling one list format inside a list of the other format switches the list kind. */
  lemma ListKindSwitch(s: State, from: string, to: string)
    requires ListsWrapBlocks(s) && s.selection.Some?
    requires IsList(from) && IsList(to) && from != to
    requires s.container == Some(from) && s.block.kind == "list-item"
    ensures ToggledBlock(s, to).container == Some(to)
    ensures ToggledBlock(s, to).block == s.block
  {
  }

  /** A list toggled on a plain paragraph wraps it in a list; toggled again, the paragraph is back. */
  lemma ListToggleTwice(s: State, block: string)
    requires ListsWrapBlocks(s) && s.selection.Some? && IsList(block)
    requires s.block.kind == "paragraph" && s.container.None?
    ensures ToggledBlock(s, block).container == Some(block)
    ensures ToggledBlock(s, block).block.kind == "list-item"
    ensures ToggledBlock(ToggledBlock(s, block), block) == s
  {
  }

  /** Toggling a mark twice restores the state exactly when the mark was absent or exactly `true`. */
  lemma MarkToggleTwice(s: State, mark: string)
    requires s.Valid() && s.selection.Some?
    ensures ToggledMark(ToggledMark(s, mark), mark) == s <==>
      s.MarkValue(mark) == None || s.MarkValue(mark) == Some(JBool(true))
  {
    var once := ToggledMark(s, mark);
    var twice := ToggledMark(once, mark);
    var m := s.marks.value;
    if s.MarkValue(mark) == None {
      assert twice.marks.value == m;
    } else if s.MarkValue(mark) == Some(JBool(true)) {
      assert twice.marks.value == m;
    } else {
      assert twice.MarkValue(mark) != s.MarkValue(mark);
    }
  }

  /** Toggling an alignment twice restores the state exactly when the block had no or that alignment. */
  lemma AlignToggleTwice(s: State, block: string)
    requires ListsWrapBlocks(s) && s.selection.Some? && IsAlign(block)
    ensures ToggledBlock(ToggledBlock(s, block), block) == s <==>
      s.block.align == None || s.block.align == Some(block)
  {
  }

  /**
   * Toggling a block type or list twice restores the state exactly when the
   * block is a plain paragraph, a plain block of that format, or a list item
   * inside a list of that format.
   */
  lemma TypeToggleTwice(s: State, block: string)
    requires ListsWrapBlocks(s) && s.selection.Some? && !IsAlign(block)
    ensures ToggledBlock(ToggledBlock(s, block), block) == s <==>
      (s.container.None? && (s.block.kind == "paragraph" || (!IsList(block) && s.block.kind == block))) ||
      (IsList(block) && s.block.kind == "list-item" && s.container == Some(block))
  {
  }

  /** List items sit in a list container and nowhere else. */
  predicate WellNested(s: State) {
    s.container.Some? <==> s.block.kind == "list-item"
  }

  /** Every toggle other than one for `list-item` itself keeps list items inside lists. */
  lemma ToggleKeepsNesting(s: State, block: string)
    requires ListsWrapBlocks(s) && WellNested(s) && block != "list-item"
    ensures WellNested(ToggledBlock(s, block))
  {
  }

  /** Toggling `list-item` directly on a paragraph leaves a list item outside any list. */
  lemma ListItemToggleBreaksNesting(s: State)
    requires ListsWrapBlocks(s) && s.selection.Some? && s.block.kind == "paragraph" && s.container.None?
    ensures !WellNested(ToggledBlock(s, "list-item"))
  {
  }

  /**
   * Bold a selected paragraph, make it a bulleted list, then toggle the list
   * off again: the list comes and goes and the bold mark stays throughout.
   */
  lemma BoldThenBulletedListScenario(selection: Range)
    ensures var s := State(Some(selection), Some(map[]), Element("paragraph", None), None);
      var bolded := ToggledMark(s, "bold");
      var listed := ToggledBlock(bolded, "bulleted-list");
      var restored := ToggledBlock(listed, "bulleted-list");
      && bolded.MarkValue("bold") == Some(JBool(true))
      && listed.container == Some("bulleted-list") && listed.block == Element("list-item", None)
      && listed.MarkValue("bold") == Some(JBool(true))
      && restored == bolded
  {
    var s := State(Some(selection), Some(map[]), Element("paragraph", None), None);
    ListToggleTwice(ToggledMark(s, "bold"), "bulleted-list");
  }
}
