/**
 * The `CustomEditor` command and query engine of the rich-text editor:
 * whether a mark or block format is active at the selection, and the toggles
 * that switch a mark, a block type, a list or an alignment on and off.
 */
module CustomEditor {
  import opened Wrappers
  import opened Json
  import opened Slate

  /** Block formats that are list containers. */
  const LIST_TYPES: seq<string> := ["numbered-list", "bulleted-list"]

  /** Block formats that are paragraph alignments. */
  const TEXT_ALIGN_TYPES: seq<string> := ["left", "right", "center", "justify"]

  predicate IsList(format: string) {
    format in LIST_TYPES
  }

  predicate IsAlign(format: string) {
    format in TEXT_ALIGN_TYPES
  }

  /**
   * The invariant every command keeps and a new editor has: list formats only
   * occur as the container around the selected block, never as the block's
   * own type. (The unwrap of `toggleBlock` would unwrap such a block itself.)
   */
  predicate ListsWrapBlocks(s: State) {
    (s.container.Some? ==> IsList(s.container.value)) && !IsList(s.block.kind)
  }

  /** The two tables: the list formats, the alignments, and no format in both. */
  lemma FormatTables(format: string)
    ensures IsList(format) <==> format == "numbered-list" || format == "bulleted-list"
    ensures IsAlign(format) <==> format == "left" || format == "right" || format == "center" || format == "justify"
    ensures !(IsList(format) && IsAlign(format))
  {
  }

  /** `isMarkActive`: the marks record maps `mark` to exactly `true`. */
  function IsMarkActive(s: State, mark: string): (r: bool)
    ensures s.marks.None? ==> !r
    ensures r <==> s.MarkValue(mark) == Some(JBool(true))
  {
    match s.marks
    case None => false
    case Some(m) => mark in m && m[mark] == JBool(true)
  }

  /** The first element of `nodes` whose `attribute` equals `value`, as `const [match] = ...` takes it. */
  function FirstMatch(nodes: seq<Element>, attribute: Attribute, value: string): (r: Option<Element>)
    ensures r.Some? <==> exists i :: 0 <= i < |nodes| && nodes[i].Get(attribute) == Some(value)
    ensures r.Some? ==> exists i :: 0 <= i < |nodes| && nodes[i] == r.value && r.value.Get(attribute) == Some(value) &&
                                    (forall j :: 0 <= j < i ==> nodes[j].Get(attribute) != Some(value))
  {
    if nodes == [] then None
    else if nodes[0].Get(attribute) == Some(value) then Some(nodes[0])
    else
      var rest := FirstMatch(nodes[1..], attribute, value);
      assert forall i :: 1 <= i < |nodes| ==> nodes[i] == nodes[1..][i - 1];
      rest
  }

  /**
   * `isBlockActive(editor, block, blockType)`: false without a selection;
   * otherwise some element the selection passes through has `blockType` equal
   * to `block`.
   */
  function IsBlockActive(s: State, block: string, blockType: Attribute): (r: bool)
    ensures s.selection.None? ==> !r
    ensures r <==> s.selection.Some? && exists e :: e in s.SelectedElements() && e.Get(blockType) == Some(block)
    ensures blockType == TypeAttr ==>
      (r <==> s.selection.Some? && (s.block.kind == block || s.container == Some(block)))
    ensures blockType == AlignAttr ==> (r <==> s.selection.Some? && s.block.align == Some(block))
  {
    var nodes := s.SelectedElements();
    assert nodes[|nodes| - 1] == s.block;
    assert s.container.Some? ==> nodes == [Element(s.container.value, None), s.block];
    assert s.container.None? ==> nodes == [s.block];
    s.selection.Some? && FirstMatch(nodes, blockType, block).Some?
  }

  /** The attribute `toggleBlock` tests: `align` for an alignment, `type` otherwise. */
  function QueriedAttribute(block: string): (r: Attribute)
    ensures r == AlignAttr <==> IsAlign(block)
  {
    if IsAlign(block) then AlignAttr else TypeAttr
  }

  /** The `match` of `toggleBlock`'s unwrap: a list container, and only for a non-alignment toggle. */
  predicate UnwrapMatches(n: Element, block: string)
    ensures IsAlign(block) ==> !UnwrapMatches(n, block)
    ensures !IsAlign(block) ==> (UnwrapMatches(n, block) <==> n.kind in LIST_TYPES)
  {
    IsList(n.kind) && !IsAlign(block)
  }

  /** The `newProperties` object of `toggleBlock`. */
  function NewProperties(block: string, isActive: bool): (r: Properties)
    ensures r.SetAlign? <==> IsAlign(block)
    ensures r.SetAlign? ==> (r.align.None? <==> isActive) && (r.align.Some? ==> r.align.value == block)
    ensures r.SetType? && isActive ==> r.kind == "paragraph"
    ensures r.SetType? && !isActive && IsList(block) ==> r.kind == "list-item"
    ensures r.SetType? && !isActive && !IsList(block) ==> r.kind == block
    ensures r.SetType? ==> !IsList(r.kind)
  {
    if IsAlign(block) then SetAlign(if isActive then None else Some(block))
    else SetType(if isActive then "paragraph" else if IsList(block) then "list-item" else block)
  }

  /** The state `toggleMark(editor, mark)` leaves. */
  function ToggledMark(s: State, mark: string): (r: State)
    ensures r.selection == s.selection && r.block == s.block && r.container == s.container
    ensures s.Valid() ==> r.Valid()
    ensures s.selection.None? ==> r == s
    ensures s.selection.Some? ==> (IsMarkActive(r, mark) <==> !IsMarkActive(s, mark))
    ensures s.selection.Some? && IsMarkActive(s, mark) ==> r.MarkValue(mark) == None
    ensures s.selection.Some? && !IsMarkActive(s, mark) ==> r.MarkValue(mark) == Some(JBool(true))
    ensures forall other :: other != mark ==> r.MarkValue(other) == s.MarkValue(other)
  {
    if IsMarkActive(s, mark) then s.MarkRemoved(mark) else s.MarkAdded(mark, JBool(true))
  }

  /** The state `toggleBlock(editor, block)` leaves: unwrap, then set properties, then maybe wrap. */
  function ToggledBlock(s: State, block: string): (r: State)
    requires ListsWrapBlocks(s)
    ensures ListsWrapBlocks(r)
    ensures s.Valid() ==> r.Valid()
    ensures r.selection == s.selection && r.marks == s.marks
    ensures s.selection.None? ==> r == s
  {
    var isActive := IsBlockActive(s, block, QueriedAttribute(block));
    var unwrapped := s.Unwrapped(n => UnwrapMatches(n, block));
    var updated := unwrapped.WithProperties(NewProperties(block, isActive));
    if !isActive && IsList(block) then updated.Wrapped(block) else updated
  }

  /** `CustomEditor.toggleMark`: remove the mark when active, add it as `true` otherwise. */
  method ToggleMark(editor: Editor, mark: string)
    modifies editor
    ensures editor.Snapshot() == ToggledMark(old(editor.Snapshot()), mark)
    ensures old(editor.Valid()) ==> editor.Valid()
  {
    var isActive := IsMarkActive(editor.Snapshot(), mark);
    if isActive {
      editor.RemoveMark(mark);
    } else {
      editor.AddMark(mark, JBool(true));
    }
  }

  /** `CustomEditor.toggleBlock`: the Slate transforms in the order the source issues them. */
  method ToggleBlock(editor: Editor, block: string)
    requires ListsWrapBlocks(editor.Snapshot())
    modifies editor
    ensures editor.Snapshot() == ToggledBlock(old(editor.Snapshot()), block)
    ensures old(editor.Valid()) ==> editor.Valid()
  {
    var isActive := IsBlockActive(editor.Snapshot(), block, QueriedAttribute(block));
    var isList := IsList(block);

    editor.UnwrapNodes(n => UnwrapMatches(n, block));
    var newProperties := NewProperties(block, isActive);
    editor.SetNodes(newProperties);

    if !isActive && isList {
      editor.WrapNodes(block);
    }
  }
}
