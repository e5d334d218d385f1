/**
 * The rich-text content tree exchanged with the editor (tiptap's JSON
 * content): a node kind, kind-specific attributes, marks on text runs,
 * ordered children and, on text nodes, the text itself.
 */
module ContentTree {
  import opened Wrappers

  datatype NodeKind =
    | Doc | Paragraph | Heading | BulletList | OrderedList | ListItem
    | Blockquote | CodeBlock | Image | HorizontalRule | HardBreak | Text
    | OtherNode(name: string)

  datatype Mark = Bold | Italic | Underline | Strike | Link(href: Option<string>) | Code | OtherMark(name: string)

  /** The node attributes the renderer reads; each may be missing. */
  datatype Attrs = Attrs(
    level: Option<int>,
    language: Option<string>,
    src: Option<string>,
    alt: Option<string>,
    width: Option<int>,
    height: Option<int>)

  const NoAttrs := Attrs(None, None, None, None, None, None)

  datatype Node = Node(kind: NodeKind, attrs: Attrs, marks: seq<Mark>, content: seq<Node>, text: string)

  /** An unmarked text run. */
  function TextRun(t: string): Node {
    Node(Text, NoAttrs, [], [], t)
  }

  /** A container node without attributes. */
  function Container(kind: NodeKind, children: seq<Node>): Node {
    Node(kind, NoAttrs, [], children, "")
  }

  /** The concatenated text of every text node below `n`, in document order (`textContent`). */
  function TextContent(n: Node): string
    decreases n, 1, 0
  {
    if n.kind.Text? then n.text else ChildrenText(n, 0)
  }

  /** The text of the children of `n` from index `i` on. */
  function ChildrenText(n: Node, i: nat): string
    requires i <= |n.content|
    decreases n, 0, |n.content| - i
  {
    if i == |n.content| then "" else TextContent(n.content[i]) + ChildrenText(n, i + 1)
  }

  /** A container's text is the text of its children, one after another. */
  lemma {:induction false} ContainerText(kind: NodeKind, children: seq<Node>)
    requires !kind.Text?
    ensures |children| == 0 ==> TextContent(Container(kind, children)) == ""
    ensures |children| == 1 ==> TextContent(Container(kind, children)) == TextContent(children[0])
    ensures |children| == 2 ==>
      TextContent(Container(kind, children)) == TextContent(children[0]) + TextContent(children[1])
  {
    var n := Container(kind, children);
    if |children| == 1 {
      assert ChildrenText(n, 1) == "";
    } else if |children| == 2 {
      assert ChildrenText(n, 2) == "";
      assert ChildrenText(n, 1) == TextContent(children[1]);
    }
  }
}
