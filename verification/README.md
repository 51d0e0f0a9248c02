# Rich-text editor command engine, modelled in Dafny

This project models the `CustomEditor` command and query engine of a
Slate-based rich-text editor, together with the small decisions around it:

- which formats read as active at the selection: marks (bold, italic, code, underline), block types, lists and alignments;
- how `toggleMark` and `toggleBlock` change the editor;
- when the document is written to local storage;
- which document is shown at startup;
- which Ctrl-key shortcuts toggle which mark.

Slate itself is not re-implemented. The editor is reduced to an abstract
state (`Slate.State`), which holds:

- the optional selection, seen only as present (its paths are not modelled);
- the marks record `Editor.marks` reports;
- the lowest block element at the selection, with its `type` and optional `align`;
- the optional list container around that block.

Each Slate primitive the commands call is a method of the class
`Slate.Editor` that changes these fields. Its contract is a transformer of
`State` (`MarkAdded`, `MarkRemoved`, `Unwrapped`, `WithProperties`,
`Wrapped`). `CustomEditor.ToggleMark` and `CustomEditor.ToggleBlock` issue
these primitives in the source's order. They are proved against the
specification functions `ToggledMark` and `ToggledBlock`, and the laws in
`ToggleLaws` are proved about those functions. `ToggleBlock` expects the one
invariant every command keeps and a new editor has (`ListsWrapBlocks`): list
formats occur only as the container around the selected block, and never as
the block's own type.

Files:

- `wrappers.dfy`: `Option`.
- `json.dfy`: JSON values and JavaScript truthiness.
- `slate.dfy`: the abstract editor and its primitives.
- `custom_editor.dfy`: the queries, the toggles and the `LIST_TYPES` / `TEXT_ALIGN_TYPES` tables.
- `toggle_laws.dfy`: the toggle decision table and its laws.
- `app.dfy`: the startup document, the save predicate and `onChange`, the key dispatch and `onKeyDown`.

Behaviour of the code worth noting:

- Toggling a mark twice does not always restore the editor. If the marks record holds the mark with a value other than `true`, the first toggle replaces it with `true` and the second removes it. `ToggleLaws.MarkToggleTwice` states exactly when the state is restored.
- Toggling an alignment twice does not restore a block that had a different alignment. The first toggle is inactive for the new format and sets it, and the second toggle is active and clears `align`, so the old alignment is lost (src/App.js:64-67). `ToggleLaws.AlignToggleTwice` states exactly when the state is restored.
- Toggling a list off on one item of a longer list splits that list. `unwrapNodes` with `split: true` (src/App.js:55-62) lifts only the selected item out, so a middle item leaves one list before it and one after it. Toggling the list on again (src/App.js:76-79) wraps the item in a new list of its own. A middle item of a three-item list, toggled twice, therefore ends up as three adjacent lists where there was one, and a numbered item restarts its numbering.
- A stored snapshot that parses to a falsy JSON value (`null`, `false`, `0`, `""`) also gives the default document, because the code uses `||`. A snapshot that parses to a truthy non-document, such as `[]`, is used as it is.
- A stored text that is not JSON makes `JSON.parse` throw. There is no recovery for it.
- The repository has no undo/redo logic of its own. History comes from the `slate-history` library.

## Model

| member | source | states |
|---|---|---|
| `CustomEditor.IsMarkActive` | src/App.js:15-18 | false when there is no marks record; true exactly when the record maps the mark to the JSON value `true` (any other value, or no entry, is inactive) |
| `CustomEditor.FirstMatch` | src/App.js:24-34 | finds a match iff some element of the sequence has the attribute equal to the value; the one returned is such an element and no earlier element matches |
| `CustomEditor.IsBlockActive` | src/App.js:20-35 | false without a selection; otherwise true iff some element the selection passes through has the attribute equal to the format; for `type` that is the block or its list container, for `align` the block |
| `CustomEditor.ToggledMark` | src/App.js:37-45 | only the marks change; without a selection nothing changes; with one, the mark's activity flips: an active mark is removed and an inactive one is set to `true`; every other mark name keeps its value; Slate's invariant is kept |
| `CustomEditor.ToggleMark` | src/App.js:37-45 | the editor ends in `ToggledMark` of its old state, by `removeMark` when active and `addMark(mark, true)` otherwise; a valid editor stays valid |
| `CustomEditor.ToggledBlock` | src/App.js:47-80 | selection and marks are unchanged; without a selection nothing changes; list formats stay only on the container (`ListsWrapBlocks` is kept), and Slate's marks-iff-selection invariant is kept |
| `CustomEditor.ToggleBlock` | src/App.js:47-80 | the editor ends in `ToggledBlock` of its old state, after `unwrapNodes`, `setNodes` and (inactive list only) `wrapNodes` in that order; a valid editor stays valid |
| `ToggleLaws.AlignToggleDecision` | src/App.js:47-79 | an alignment toggle leaves the type and the list container alone and sets `align` to the format, or clears it when the block already had that alignment |
| `ToggleLaws.TypeToggleDecision` | src/App.js:53-79 | a non-alignment toggle keeps `align`; the type becomes `paragraph` when active, `list-item` for a list format, the format otherwise; the enclosing list is unwrapped and a new list of the format is wrapped only when inactive and a list format |
| `ToggleLaws.ListKindSwitch` | src/App.js:55-79 | toggling one list format on a list item inside the other list format replaces the container by one of the new format and leaves the item as it was |
| `ToggleLaws.ListToggleTwice` | src/App.js:55-79 | a list toggled on a plain paragraph gives a list item in a list of that format; toggled again, the original state is back |
| `ToggleLaws.MarkToggleTwice` | src/App.js:37-45 | with a selection, toggling a mark twice restores the state iff the mark was absent or exactly `true` |
| `ToggleLaws.AlignToggleTwice` | src/App.js:63-74 | toggling an alignment twice restores the state iff the block had no alignment or that same one |
| `ToggleLaws.TypeToggleTwice` | src/App.js:53-79 | toggling a type or list twice restores the state iff the block is a plain paragraph, a plain block of that (non-list) format, or a list item inside a list of that format; for the list item this is the selected block and its own container only, the list's other items are not modelled |
| `ToggleLaws.ToggleKeepsNesting` | src/App.js:55-79 | every toggle except one for `list-item` itself keeps "list items exactly inside list containers" |
| `ToggleLaws.ListItemToggleBreaksNesting` | src/App.js:69-74 | toggling the format `list-item` on a plain paragraph leaves a list item outside any list |
| `ToggleLaws.BoldThenBulletedListScenario` | src/App.js:37-79 | bold on a paragraph, then bulleted list: a bold list item in a bulleted list; the list toggled again gives back the bold paragraph |
| `Slate.State.MarkAdded` | src/App.js:43 | with a selection the key maps to the value afterwards and no other key changes; selection, block and container stay; without a selection nothing changes |
| `Slate.State.MarkRemoved` | src/App.js:40 | with a selection the key is gone afterwards and no other key changes; selection, block and container stay; without a selection nothing changes |
| `Slate.Editor.constructor` | src/App.js:85 | a new editor has no selection and no marks record |
| `CustomEditor.FormatTables` | src/App.js:11-12 | the list formats are exactly `numbered-list` and `bulleted-list`, the alignments exactly `left`, `right`, `center` and `justify`, and no format is both |
| `CustomEditor.QueriedAttribute` | src/App.js:51 | the attribute tested is `align` exactly for an alignment format, `type` otherwise |
| `CustomEditor.UnwrapMatches` | src/App.js:56-60 | an alignment toggle unwraps nothing; any other toggle unwraps exactly the elements whose type is a list format |
| `CustomEditor.NewProperties` | src/App.js:63-73 | `align` is set exactly for an alignment format, to that format when inactive and cleared when active; otherwise the type is `paragraph` when active, `list-item` for an inactive list, the format itself for any other inactive format, and never a list format |
| `Slate.State.Unwrapped` | src/App.js:55-62 | only the container can change; with a selection and a container, the container goes exactly when the match accepts it; without a selection nothing changes |
| `Slate.State.WithProperties` | src/App.js:74 | with a selection, the block takes the new type or the new alignment and keeps the other attribute; nothing else changes |
| `Slate.State.Wrapped` | src/App.js:77-78 | with a selection, the block ends inside a new container of the given type; selection, marks and block are unchanged |
| `Slate.Editor.AddMark` | src/App.js:43 | the editor ends in `MarkAdded` of its old state |
| `Slate.Editor.RemoveMark` | src/App.js:40 | the editor ends in `MarkRemoved` of its old state |
| `Slate.Editor.UnwrapNodes` | src/App.js:55-62 | the editor ends in `Unwrapped` of its old state, for the given match |
| `Slate.Editor.SetNodes` | src/App.js:74 | the editor ends in `WithProperties` of its old state |
| `Slate.Editor.WrapNodes` | src/App.js:77-78 | the editor ends in `Wrapped` of its old state |
| `App.DefaultDocument` | src/App.js:89-94 | a one-element array whose element has `type` `paragraph` and one child whose `text` is `A line of text in a paragraph.` |
| `App.Storage.constructor` | src/App.js:89 | before anything is saved, the `'content'` slot holds nothing |
| `App.Storage.SetItem` | src/App.js:143 | the `'content'` slot holds the saved value afterwards |
| `App.InitialValue` | src/App.js:87-96 | the startup value is always truthy: the stored value when it is truthy, the default single-paragraph document when nothing is stored or it is falsy |
| `App.IsAstChange` | src/App.js:138-140 | true iff some operation of the batch has a type other than `set_selection` |
| `App.OnChange` | src/App.js:137-145 | the stored snapshot becomes `StoredAfterChange` of the old one: the document iff the batch changed more than the selection, otherwise unchanged |
| `App.SelectionMovesNotSaved` | src/App.js:137-145 | a batch of selection moves only leaves the stored snapshot as it was |
| `App.SavedDocumentReloads` | src/App.js:141-143 | after an editing batch the next startup shows exactly the saved document |
| `App.ShortcutMark` | src/App.js:238-266 | a mark is chosen iff Ctrl is held and the key is `b`, `i`, backquote or `u`; the mark is one of bold, italic, code, underline |
| `App.ShortcutTable` | src/App.js:243-263 | `b` gives bold, `i` italic, backquote code, `u` underline; without Ctrl no key gives anything |
| `App.OnKeyDown` | src/App.js:238-268 | the default is prevented iff a shortcut matched; the editor is then in `ToggledMark` of its old state for that mark, and unchanged otherwise; a valid editor stays valid |
| `App.ToolbarKeepsNesting` | src/App.js:183-230 | each block button of the toolbar keeps list items exactly inside lists |
| `App.FreshEditorInactive` | src/App.js:85 | on a newly created editor no mark and no block format reads as active |

## Left out

- Slate internals: range unhanging, paths, `split: true` across several blocks, and `mode: 'lowest'` over nested lists. The model holds one lowest block and at most one list container.
- States where the selected block's own type is a list format are excluded by `ListsWrapBlocks`. There, the source's unwrap would unwrap the block itself. No command produces such a block, because `setNodes` is never given a list format (`NewProperties`).
- The other items of the list around the selected block are not modelled, nor are the lists that an unwrap with `split: true` leaves before and after it. `ToggleLaws.TypeToggleTwice`: its list-item case restores the selected block and its own container only. It does not restore the original list, which the code splits as described above.
- Selection paths are not modelled. A selection is only present or absent, and collapsed or not. So `ToggledBlock` keeping the selection says nothing about the anchor and focus paths, which Slate rebases when it unwraps and wraps nodes.
- `Slate.Editor.WrapNodes`: modelled only where no container exists. `toggleBlock` only calls it there, right after the unwrap has removed any list.
- Slate's handling of several selected leaves (pending marks for a collapsed cursor, `setNodes` with `split` for an expanded one) is not modelled. `Editor.marks` is one record, and `addMark`/`removeMark` change that record.
- `editor.operations` is not produced by the modelled primitives. `OnChange` takes the batch as a parameter.
- `JSON.stringify`/`JSON.parse`: the stored text is represented by the JSON value it encodes. Parse failures, which throw in the code, are not modelled.
- `localStorage` failures (e.g. quota) are not modelled. The code does not catch them either.
- Undo/redo (`withHistory`) is not modelled. It is library code with no logic in this repository.
- Rendering (`renderElement`, `Leaf`, the toolbar markup and icons) is not modelled: it is presentation only. The toolbar's list of block formats is kept as `App.TOOLBAR_BLOCKS`.
- src/components/TextEditor.js is not part of this model. It is an unused component on an older Slate API.
- src/components/Header/index.js is not part of this model. It is static markup.
