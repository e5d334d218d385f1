/**
 * The per-node and per-mark mapping the email renderer hands to tiptap's
 * static renderer: each content-tree node kind becomes an email element
 * with fixed inline styles, each mark a wrapping element. The traversal
 * itself (children, mark nesting, unknown kinds) belongs to the library.
 */
module TiptapRenderer {
  import opened Wrappers
  import opened ContentTree
  import EmailBuilderTypes

  type Align = EmailBuilderTypes.Align

  /** What the caller passes down: text colour, alignment and the paragraph font size. */
  datatype RenderOptions = RenderOptions(textColor: Option<string>, textAlign: Option<Align>, fontSize: Option<int>)

  /** The element a node is rendered as, with its inline style values. */
  datatype Element =
    | TextElement(color: Option<string>, textAlign: Option<Align>, fontSize: int, lineHeight: real, margin: string)
    | HeadingElement(level: int, color: Option<string>, textAlign: Option<Align>, size: Option<int>,
                     fontWeight: string, margin: string, lineHeight: real)
    | QuoteSection(borderLeft: string, paddingLeft: int, margin: string,
                   innerFontStyle: string, innerColor: string, innerMargin: int)
    | CodeBlockElement(code: string, language: string, theme: string, margin: string)
    | ImgElement(src: Option<string>, alt: string, width: Option<int>, height: Option<int>,
                 display: string, maxWidth: string, margin: string)
    | HrElement(borderColor: string, margin: string)
    | ListElement(ordered: bool, paddingLeft: int, margin: string, color: Option<string>)
    | ListItemElement(marginBottom: int)
    | LineBreak

  /** The element a mark wraps its text in. */
  datatype MarkElement =
    | Strong | Em | U | S
    | Anchor(href: Option<string>, color: string, textDecoration: string)
    | InlineCode(backgroundColor: string, padding: string, borderRadius: int, fontFamily: string, fontSize: string)

  const DefaultParagraphFontSize := 16
  const DefaultCodeLanguage := "bash"
  const QuoteFallbackColor := "#6b7280"
  const ListPaddingLeft := 24
  const ListItemMarginBottom := 4
  const DefaultEmptyText := "Enter your text here..."

  /** A heading's level: a missing or zero level counts as 1 (the `|| 1` fallback). */
  function EffectiveLevel(level: Option<int>): int {
    if level.None? || level.value == 0 then 1 else level.value
  }

  /** Font size per heading level; levels outside 1..6 have no entry. */
  function HeadingFontSize(level: int): Option<int> {
    if level == 1 then Some(32)
    else if level == 2 then Some(28)
    else if level == 3 then Some(24)
    else if level == 4 then Some(20)
    else if level == 5 then Some(18)
    else if level == 6 then Some(16)
    else None
  }

  /** A string attribute with JavaScript's `|| fallback`: a missing or empty value falls back. */
  function OrIfEmpty(s: Option<string>, fallback: string): string {
    if s.None? || s.value == "" then fallback else s.value
  }

  /** The element for one node, or None where the static renderer's own handling applies (doc, text, unknown kinds). */
  function RenderNode(n: Node, options: RenderOptions): (r: Option<Element>)
    ensures r.None? <==> n.kind.Doc? || n.kind.Text? || n.kind.OtherNode?
  {
    var textColor := options.textColor;
    var textAlign := options.textAlign;
    match n.kind
    case Paragraph =>
      Some(TextElement(textColor, textAlign, options.fontSize.GetOr(DefaultParagraphFontSize), 1.6, "0 0 8px 0"))
    case Heading =>
      var level := EffectiveLevel(n.attrs.level);
      Some(HeadingElement(level, textColor, textAlign, HeadingFontSize(level), "bold", "0 0 16px 0", 1.3))
    case Blockquote =>
      Some(QuoteSection("3px solid #e5e7eb", 16, "0 0 16px 0", "italic", textColor.GetOr(QuoteFallbackColor), 0))
    case CodeBlock =>
      Some(CodeBlockElement(OrIfEmpty(Some(TextContent(n)), ""), OrIfEmpty(n.attrs.language, DefaultCodeLanguage),
                            "dracula", "0 0 16px 0"))
    case Image =>
      Some(ImgElement(n.attrs.src, OrIfEmpty(n.attrs.alt, ""), n.attrs.width, n.attrs.height,
                      "block", "100%", "0 auto 16px auto"))
    case HorizontalRule =>
      Some(HrElement("#e5e7eb", "24px 0"))
    case BulletList =>
      Some(ListElement(false, ListPaddingLeft, "0 0 8px 0", textColor))
    case OrderedList =>
      Some(ListElement(true, ListPaddingLeft, "0 0 8px 0", textColor))
    case ListItem =>
      Some(ListItemElement(ListItemMarginBottom))
    case HardBreak =>
      Some(LineBreak)
    case Doc => None
    case Text => None
    case OtherNode(_) => None
  }

  /** The element for one mark; unknown marks have no mapping. */
  function RenderMark(m: Mark): (r: Option<MarkElement>)
    ensures r.None? <==> m.OtherMark?
  {
    match m
    case Bold => Some(Strong)
    case Italic => Some(Em)
    case Underline => Some(U)
    case Strike => Some(S)
    case Link(href) => Some(Anchor(href, "inherit", "underline"))
    case Code => Some(InlineCode("#f3f4f6", "2px 4px", 4, "monospace", "0.875em"))
    case OtherMark(_) => None
  }

  /** A document with one paragraph holding one text run, `text` or the default placeholder. */
  function CreateEmptyContent(text: Option<string>): (r: Node)
    ensures r.kind == Doc && |r.content| == 1
    ensures r.content[0].kind == Paragraph && |r.content[0].content| == 1
    ensures r.content[0].content[0] == TextRun(text.GetOr(DefaultEmptyText))
  {
    Container(Doc, [Container(Paragraph, [TextRun(text.GetOr(DefaultEmptyText))])])
  }

  /** The text put into an empty document is exactly the text it contains. */
  lemma EmptyContentText(text: Option<string>)
    ensures TextContent(CreateEmptyContent(text)) == text.GetOr(DefaultEmptyText)
  {
    var t := text.GetOr(DefaultEmptyText);
    ContainerText(Paragraph, [TextRun(t)]);
    ContainerText(Doc, [Container(Paragraph, [TextRun(t)])]);
  }

  /** Heading sizes: levels 1 to 6 all have a size, and a deeper level is strictly smaller. */
  lemma HeadingSizesDecrease(i: int, j: int)
    requires 1 <= i < j <= 6
    ensures HeadingFontSize(i).Some? && HeadingFontSize(j).Some?
    ensures HeadingFontSize(i).value > HeadingFontSize(j).value
    ensures 16 <= HeadingFontSize(j).value && HeadingFontSize(i).value <= 32
  {
  }

  /** A heading node without a level, or with level 0, renders as a level-1 heading of size 32. */
  lemma HeadingLevelDefault(n: Node, options: RenderOptions)
    requires n.kind == Heading && (n.attrs.level.None? || n.attrs.level == Some(0))
    ensures RenderNode(n, options).Some?
    ensures RenderNode(n, options).value.level == 1 && RenderNode(n, options).value.size == Some(32)
  {
  }

  /**
   * A heading node with an explicit non-zero level keeps that level; levels 1 to 6 get the
   * sizes 32, 28, 24, 20, 18 and 16, and any other level has no size.
   */
  lemma HeadingExplicitLevel(n: Node, options: RenderOptions, level: int)
    requires n.kind == Heading && n.attrs.level == Some(level) && level != 0
    ensures RenderNode(n, options).Some? && RenderNode(n, options).value.HeadingElement?
    ensures RenderNode(n, options).value.level == level
    ensures 1 <= level <= 6 ==> RenderNode(n, options).value.size == Some([32, 28, 24, 20, 18, 16][level - 1])
    ensures !(1 <= level <= 6) ==> RenderNode(n, options).value.size == None
  {
  }

  /** A code block without a language, or with an empty one, is tagged "bash"; its code is its text. */
  lemma CodeBlockDefaults(n: Node, options: RenderOptions)
    requires n.kind == CodeBlock
    ensures RenderNode(n, options).Some? && RenderNode(n, options).value.CodeBlockElement?
    ensures RenderNode(n, options).value.code == TextContent(n)
    ensures RenderNode(n, options).value.language ==
      if n.attrs.language.None? || n.attrs.language == Some("") then "bash" else n.attrs.language.value
  {
  }

  /** A paragraph takes the caller's colour and alignment, and font size 16 unless one is given. */
  lemma ParagraphInherits(n: Node, options: RenderOptions)
    requires n.kind == Paragraph
    ensures RenderNode(n, options).Some? && RenderNode(n, options).value.TextElement?
    ensures RenderNode(n, options).value.color == options.textColor
    ensures RenderNode(n, options).value.textAlign == options.textAlign
    ensures RenderNode(n, options).value.fontSize == if options.fontSize.Some? then options.fontSize.value else 16
  {
  }

  /** A blockquote's text colour is the caller's colour if given, else "#6b7280". */
  lemma QuoteColour(n: Node, options: RenderOptions)
    requires n.kind == Blockquote
    ensures RenderNode(n, options).Some? && RenderNode(n, options).value.QuoteSection?
    ensures RenderNode(n, options).value.innerColor == if options.textColor.Some? then options.textColor.value else "#6b7280"
  {
  }

  /** Lists are padded 24 on the left and list items have bottom margin 4, whatever the options. */
  lemma ListSpacing(n: Node, options: RenderOptions)
    requires n.kind == BulletList || n.kind == OrderedList || n.kind == ListItem
    ensures RenderNode(n, options).Some?
    ensures n.kind != ListItem ==> RenderNode(n, options).value == ListElement(n.kind == OrderedList, 24, "0 0 8px 0", options.textColor)
    ensures n.kind == ListItem ==> RenderNode(n, options).value == ListItemElement(4)
  {
  }

  /** An image without `alt` (or with an empty one) gets the empty alt text; size and source pass through. */
  lemma ImageAltDefault(n: Node, options: RenderOptions)
    requires n.kind == Image
    ensures RenderNode(n, options).Some? && RenderNode(n, options).value.ImgElement?
    ensures RenderNode(n, options).value.alt == if n.attrs.alt.None? then "" else n.attrs.alt.value
    ensures RenderNode(n, options).value.src == n.attrs.src
    ensures RenderNode(n, options).value.width == n.attrs.width && RenderNode(n, options).value.height == n.attrs.height
  {
  }

  /** Links render as anchors carrying the mark's href; code renders in a monospace font. */
  lemma MarkMapping(m: Mark)
    ensures m.Link? ==> RenderMark(m) == Some(Anchor(m.href, "inherit", "underline"))
    ensures m.Code? ==> RenderMark(m).Some? && RenderMark(m).value.InlineCode? && RenderMark(m).value.fontFamily == "monospace"
    ensures m == Bold ==> RenderMark(m) == Some(Strong)
    ensures m == Italic ==> RenderMark(m) == Some(Em)
    ensures m == Underline ==> RenderMark(m) == Some(U)
    ensures m == Strike ==> RenderMark(m) == Some(S)
  {
  }
}
