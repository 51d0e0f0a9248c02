/**
 * The application around the editor: the document shown at startup, the
 * decision to persist after a change, and the Ctrl-key shortcuts.
 */
module App {
  import opened Wrappers
  import opened Json
  import opened Slate
  import opened CustomEditor
  import opened ToggleLaws

  /** The text of the paragraph shown when nothing is stored. */
  const DEFAULT_TEXT: string := "A line of text in a paragraph."

  /** The block formats the toolbar buttons toggle. */
  const TOOLBAR_BLOCKS: seq<string> :=
    ["left", "center", "right", "justify", "bulleted-list", "numbered-list"]

  /** The document used when nothing truthy is stored: one paragraph holding `DEFAULT_TEXT`. */
  function DefaultDocument(): (r: Value)
    ensures Truthy(r) && r.JArray? && |r.items| == 1
    ensures Member(r.items[0], "type") == Some(JString("paragraph"))
    ensures var children := Member(r.items[0], "children");
      && children.Some? && children.value.JArray? && |children.value.items| == 1
      && Member(children.value.items[0], "text") == Some(JString(DEFAULT_TEXT))
  {
    var children := JArray([JObject([("text", JString(DEFAULT_TEXT))])]);
    var members := [("type", JString("paragraph")), ("children", children)];
    assert Find(members, "children") == Find(members[1..], "children") == Some(children);
    JArray([JObject(members)])
  }

  /**
   * `JSON.parse(localStorage.getItem('content')) || default`. `stored` is the
   * parsed snapshot, `None` when the key is absent (`JSON.parse(null)` is `null`).
   */
  function InitialValue(stored: Option<Value>): (r: Value)
    ensures Truthy(r)
    ensures stored.Some? && Truthy(stored.value) ==> r == stored.value
    ensures stored.None? ==> r == DefaultDocument()
    ensures r == stored.GetOr(JNull) || r == DefaultDocument()
  {
    match stored
    case Some(v) => if Truthy(v) then v else DefaultDocument()
    case None => DefaultDocument()
  }

  /** One entry of `editor.operations`; only its `type` is read. */
  datatype Operation = Operation(opType: string)

  /** `editor.operations.some(op => 'set_selection' !== op.type)`. */
  predicate IsAstChange(operations: seq<Operation>)
    ensures IsAstChange(operations) <==>
      exists i :: 0 <= i < |operations| && operations[i].opType != "set_selection"
  {
    if operations == [] then false
    else if operations[0].opType != "set_selection" then true
    else
      assert forall i :: 1 <= i < |operations| ==> operations[i] == operations[1..][i - 1];
      IsAstChange(operations[1..])
  }

  /** The `'content'` slot of `localStorage`; the JSON text is represented by the value it encodes. */
  class Storage {
    var content: Option<Value>

    /** Nothing stored yet: `getItem('content')` gives `null`. */
    constructor ()
      ensures content.None?
    {
      content := None;
    }

    /** `localStorage.setItem('content', JSON.stringify(value))`. */
    method SetItem(value: Value)
      modifies this
      ensures content == Some(value)
    {
      content := Some(value);
    }
  }

  /** The content slot after a change batch: replaced by `value` exactly when the batch edits the document. */
  function StoredAfterChange(operations: seq<Operation>, value: Value, stored: Option<Value>): Option<Value> {
    if IsAstChange(operations) then Some(value) else stored
  }

  /** The `onChange` handler: store the document after a batch that changed more than the selection. */
  method OnChange(storage: Storage, operations: seq<Operation>, value: Value)
    modifies storage
    ensures storage.content == StoredAfterChange(operations, value, old(storage.content))
  {
    var isAstChange := IsAstChange(operations);
    if isAstChange {
      storage.SetItem(value);
    }
  }

  /** A batch of selection moves only never touches the stored snapshot. */
  lemma SelectionMovesNotSaved(operations: seq<Operation>, value: Value, stored: Option<Value>)
    requires forall i :: 0 <= i < |operations| ==> operations[i].opType == "set_selection"
    ensures StoredAfterChange(operations, value, stored) == stored
  {
  }

  /** After an editing batch, the next startup shows exactly the document that was saved. */
  lemma SavedDocumentReloads(operations: seq<Operation>, document: seq<Value>, stored: Option<Value>)
    requires IsAstChange(operations)
    ensures InitialValue(StoredAfterChange(operations, JArray(document), stored)) == JArray(document)
  {
  }

  /** The mark a Ctrl-key shortcut toggles: `b`, `i`, backquote and `u`; nothing else. */
  function ShortcutMark(ctrlKey: bool, key: string): (r: Option<string>)
    ensures r.Some? <==> ctrlKey && (key == "b" || key == "i" || key == "`" || key == "u")
    ensures r.Some? ==> r.value in ["bold", "italic", "code", "underline"]
  {
    if !ctrlKey then None
    else if key == "b" then Some("bold")
    else if key == "i" then Some("italic")
    else if key == "`" then Some("code")
    else if key == "u" then Some("underline")
    else None
  }

  /** Each of the four shortcuts toggles its own mark. */
  lemma ShortcutTable()
    ensures ShortcutMark(true, "b") == Some("bold")
    ensures ShortcutMark(true, "i") == Some("italic")
    ensures ShortcutMark(true, "`") == Some("code")
    ensures ShortcutMark(true, "u") == Some("underline")
    ensures forall key :: ShortcutMark(false, key) == None
  {
  }

  /** The `onKeyDown` handler: a recognised shortcut prevents the default and toggles its mark. */
  method OnKeyDown(editor: Editor, ctrlKey: bool, key: string) returns (preventDefault: bool)
    modifies editor
    ensures preventDefault <==> ShortcutMark(ctrlKey, key).Some?
    ensures editor.Snapshot() ==
      match ShortcutMark(ctrlKey, key)
      case Some(mark) => ToggledMark(old(editor.Snapshot()), mark)
      case None => old(editor.Snapshot())
    ensures old(editor.Valid()) ==> editor.Valid()
  {
    preventDefault := false;
    if !ctrlKey {
      return;
    }
    var mark := ShortcutMark(ctrlKey, key);
    if mark.Some? {
      preventDefault := true;
      ToggleMark(editor, mark.value);
    }
  }

  /** The toolbar's block buttons keep list items inside lists. */
  lemma ToolbarKeepsNesting(s: State, i: nat)
    requires i < |TOOLBAR_BLOCKS|
    requires ListsWrapBlocks(s) && WellNested(s)
    ensures WellNested(ToggledBlock(s, TOOLBAR_BLOCKS[i]))
  {
    ToggleKeepsNesting(s, TOOLBAR_BLOCKS[i]);
  }

  /** A freshly created editor has no selection, so no mark or block reads as active. */
  method FreshEditorInactive(mark: string, block: string, attribute: Attribute) returns (editor: Editor)
    ensures !IsMarkActive(editor.Snapshot(), mark)
    ensures !IsBlockActive(editor.Snapshot(), block, attribute)
  {
    editor := new Editor();
  }
}
