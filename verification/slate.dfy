/**
 * An abstract view of a Slate editor, reduced to what the rich-text commands
 * read and write: the selection, the marks record `Editor.marks` reports, the
 * lowest block element at the selection and the list container around it.
 *
 * The Slate primitives the commands call (`Editor.addMark`, `Editor.removeMark`,
 * `Transforms.unwrapNodes`, `Transforms.setNodes`, `Transforms.wrapNodes`) are
 * methods of `Editor`, each specified by a transformer of `State`.
 */
module Slate {
  import opened Wrappers
  import Json

  /**
   * A selection, seen only as present and as collapsed (a caret) or expanded.
   * Its anchor and focus paths are not modelled: Slate's transforms rebase
   * them as nodes are unwrapped and wrapped, and the commands never read them.
   */
  datatype Range = Range(collapsed: bool)

  /** The formatting record of a text node: mark name to JSON value. */
  type Marks = map<string, Json.Value>

  /** The attribute `isBlockActive` compares: an element's `type` or its `align`. */
  datatype Attribute = TypeAttr | AlignAttr

  /** A block element's `type` (here `kind`) and its optional `align`. */
  datatype Element = Element(kind: string, align: Option<string>) {

    /** The element's value for `attribute`, `None` standing for `undefined`. */
    function Get(attribute: Attribute): Option<string> {
      match attribute
      case TypeAttr => Some(kind)
      case AlignAttr => align
    }
  }

  /** The property object handed to `Transforms.setNodes`. */
  datatype Properties = SetType(kind: string) | SetAlign(align: Option<string>)

  /**
   * What the commands can observe of an editor. `marks` is what `Editor.marks`
   * returns; `block` is the lowest block at the selection; `container` is the
   * `type` of the element enclosing that block, if any. A container is always
   * created without `align` and `setNodes` only reaches lowest blocks, so a
   * container carries no alignment.
   */
  datatype State = State(
    selection: Option<Range>,
    marks: Option<Marks>,
    block: Element,
    container: Option<string>)
  {
    /** `Editor.marks` returns `null` exactly when there is no selection. */
    predicate Valid() {
      selection.Some? <==> marks.Some?
    }

    /** `Editor.marks(editor)[key]`, with `None` for a missing record or key. */
    function MarkValue(key: string): Option<Json.Value> {
      if marks.Some? && key in marks.value then Some(marks.value[key]) else None
    }

    /** The elements the selection passes through, in document order, the editor root excluded. */
    function SelectedElements(): seq<Element> {
      (if container.Some? then [Element(container.value, None)] else []) + [block]
    }

    /** `Editor.addMark(editor, key, value)`: without a selection nothing happens. */
    function MarkAdded(key: string, value: Json.Value): (r: State)
      ensures r.selection == selection && r.block == block && r.container == container
      ensures selection.None? ==> r == this
      ensures Valid() ==> r.Valid()
      ensures selection.Some? ==> r.MarkValue(key) == Some(value)
      ensures forall k :: k != key ==> r.MarkValue(k) == MarkValue(k)
    {
      if selection.None? then this
      else this.(marks := Some(marks.GetOr(map[])[key := value]))
    }

    /** `Editor.removeMark(editor, key)`: without a selection nothing happens. */
    function MarkRemoved(key: string): (r: State)
      ensures r.selection == selection && r.block == block && r.container == container
      ensures selection.None? ==> r == this
      ensures Valid() ==> r.Valid()
      ensures selection.Some? ==> r.MarkValue(key) == None
      ensures forall k :: k != key ==> r.MarkValue(k) == MarkValue(k)
    {
      if selection.None? then this
      else this.(marks := Some(marks.GetOr(map[]) - {key}))
    }

    /** `Transforms.unwrapNodes(editor, {match})` on a single block: the container goes when it matches. */
    function Unwrapped(matches: Element -> bool): (r: State)
      ensures r.selection == selection && r.marks == marks && r.block == block
      ensures r.container.None? || r.container == container
      ensures selection.Some? && container.Some? ==>
        (r.container.None? <==> matches(Element(container.value, None)))
      ensures selection.None? ==> r == this
    {
      if selection.Some? && container.Some? && matches(Element(container.value, None))
      then this.(container := None)
      else this
    }

    /** `Transforms.setNodes(editor, props)` on the lowest block; `align: undefined` clears it. */
    function WithProperties(props: Properties): (r: State)
      ensures r.selection == selection && r.marks == marks && r.container == container
      ensures selection.Some? && props.SetType? ==> r.block == Element(props.kind, block.align)
      ensures selection.Some? && props.SetAlign? ==> r.block == Element(block.kind, props.align)
      ensures selection.None? ==> r == this
    {
      if selection.None? then this
      else match props
        case SetType(k) => this.(block := block.(kind := k))
        case SetAlign(a) => this.(block := block.(align := a))
    }

    /** `Transforms.wrapNodes(editor, {type: wrapperType, children: []})` around the lowest block. */
    function Wrapped(wrapperType: string): (r: State)
      requires selection.Some? ==> container.None?
      ensures r.selection == selection && r.marks == marks && r.block == block
      ensures selection.Some? ==> r.container == Some(wrapperType)
      ensures selection.None? ==> r == this
    {
      if selection.None? then this else this.(container := Some(wrapperType))
    }
  }

  /** The editor object the commands mutate in place. */
  class Editor {
    var selection: Option<Range>
    var marks: Option<Marks>
    var block: Element
    var container: Option<string>

    /** `createEditor()`: no selection and no marks yet. */
    constructor ()
      ensures Snapshot() == State(None, None, Element("paragraph", None), None)
      ensures Valid()
    {
      selection := None;
      marks := None;
      block := Element("paragraph", None);
      container := None;
    }

    function Snapshot(): State
      reads this
    {
      State(selection, marks, block, container)
    }

    predicate Valid()
      reads this
    {
      Snapshot().Valid()
    }

    method AddMark(key: string, value: Json.Value)
      modifies this
      ensures Snapshot() == old(Snapshot()).MarkAdded(key, value)
    {
      if selection.Some? {
        marks := Some(marks.GetOr(map[])[key := value]);
      }
    }

    method RemoveMark(key: string)
      modifies this
      ensures Snapshot() == old(Snapshot()).MarkRemoved(key)
    {
      if selection.Some? {
        marks := Some(marks.GetOr(map[]) - {key});
      }
    }

    method UnwrapNodes(matches: Element -> bool)
      modifies this
      ensures Snapshot() == old(Snapshot()).Unwrapped(matches)
    {
      if selection.Some? && container.Some? && matches(Element(container.value, None)) {
        container := None;
      }
    }

    method SetNodes(props: Properties)
      modifies this
      ensures Snapshot() == old(Snapshot()).WithProperties(props)
    {
      if selection.Some? {
        match props
        case SetType(k) => block := block.(kind := k);
        case SetAlign(a) => block := block.(align := a);
      }
    }

    method WrapNodes(wrapperType: string)
      requires selection.Some? ==> container.None?
      modifies this
      ensures Snapshot() == old(Snapshot()).Wrapped(wrapperType)
    {
      if selection.Some? {
        container := Some(wrapperType);
      }
    }
  }
}
