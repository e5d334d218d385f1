/**
 * The email document model: twelve block variants, each with a stable id,
 * and the document that orders them. Every field that a design system can
 * supply is an Option override: None means "take it from the tokens".
 */
module EmailBuilderTypes {
  import opened Wrappers
  import ContentTree
  import opened DesignSystemTypes

  /** The closed set of block tags. */
  datatype BlockType =
    Heading | Text | Image | Button | Header | Columns |
    Divider | Spacer | SocialLinks | Footer | List | Blockquote {
    /** The `type` discriminant as it appears in a serialized block. */
    function Tag(): string {
      match this
      case Heading => "heading"
      case Text => "text"
      case Image => "image"
      case Button => "button"
      case Header => "header"
      case Columns => "columns"
      case Divider => "divider"
      case Spacer => "spacer"
      case SocialLinks => "social-links"
      case Footer => "footer"
      case List => "list"
      case Blockquote => "blockquote"
    }
  }

  const AllBlockTypes: seq<BlockType> :=
    [Heading, Text, Image, Button, Header, Columns, Divider, Spacer, SocialLinks, Footer, List, Blockquote]

  /** Reads a `type` discriminant back; only the twelve tags are accepted. */
  function ParseTag(s: string): (r: Option<BlockType>)
    ensures r.Some? ==> r.value.Tag() == s
  {
    if s == "heading" then Some(Heading)
    else if s == "text" then Some(Text)
    else if s == "image" then Some(Image)
    else if s == "button" then Some(Button)
    else if s == "header" then Some(Header)
    else if s == "columns" then Some(Columns)
    else if s == "divider" then Some(Divider)
    else if s == "spacer" then Some(Spacer)
    else if s == "social-links" then Some(SocialLinks)
    else if s == "footer" then Some(Footer)
    else if s == "list" then Some(List)
    else if s == "blockquote" then Some(Blockquote)
    else None
  }

  /** Every tag reads back as its own block type, so the twelve tags are distinct. */
  lemma ParseTagRoundTrip(t: BlockType)
    ensures ParseTag(t.Tag()) == Some(t)
  {
    match t
    case Heading =>
    case Text =>
    case Image =>
    case Button =>
    case Header =>
    case Columns =>
    case Divider =>
    case Spacer =>
    case SocialLinks =>
    case Footer =>
    case List =>
    case Blockquote =>
  }

  /** There are exactly twelve block types, listed once each. */
  lemma AllBlockTypesComplete()
    ensures |AllBlockTypes| == 12
    ensures forall t: BlockType :: t in AllBlockTypes
    ensures forall i, j :: 0 <= i < j < |AllBlockTypes| ==> AllBlockTypes[i] != AllBlockTypes[j]
  {
    forall t: BlockType ensures t in AllBlockTypes {
      match t
      case Heading =>
      case Text =>
      case Image =>
      case Button =>
      case Header =>
      case Columns =>
      case Divider =>
      case Spacer =>
      case SocialLinks =>
      case Footer =>
      case List =>
      case Blockquote =>
    }
  }

  datatype Align = Left | Center | Right

  /** A heading block's level: 1, 2 or 3. */
  type HeadingLevel = l: int | 1 <= l <= 3 witness 1

  /** A columns block has 2 or 3 columns. */
  type ColumnCount = n: int | 2 <= n <= 3 witness 2

  datatype ListType = Bullet | Ordered

  datatype Platform = Twitter | Facebook | Instagram | LinkedIn | YouTube

  datatype SocialLink = SocialLink(platform: Platform, url: string)

  /**
   * One variant per block type. The rich-text variants own a content tree;
   * list and blockquote blocks carry no alignment. A columns block holds one
   * sequence of nested blocks per column (its `content` in serialized form,
   * `cells` here).
   */
  datatype EmailBlock =
    | HeadingBlock(id: string, content: ContentTree.Node, level: HeadingLevel, align: Align, color: Option<string>)
    | TextBlock(id: string, content: ContentTree.Node, align: Align, color: Option<string>)
    | ImageBlock(id: string, src: string, alt: string, width: int, height: int, align: Align)
    | ButtonBlock(id: string, text: string, url: string, backgroundColor: Option<string>,
                  textColor: Option<string>, borderRadius: Option<int>, align: Align)
    | HeaderBlock(id: string, logoSrc: string, brandName: string, showBadge: bool)
    | ColumnsBlock(id: string, columns: ColumnCount, gap: int, cells: seq<seq<EmailBlock>>)
    | DividerBlock(id: string, color: Option<string>, thickness: Option<int>, style: Option<BorderStyle>)
    | SpacerBlock(id: string, height: int)
    | SocialLinksBlock(id: string, links: seq<SocialLink>, iconSize: int, align: Align)
    | FooterBlock(id: string, content: ContentTree.Node, align: Align, color: Option<string>)
    | ListBlock(id: string, content: ContentTree.Node, listType: ListType, color: Option<string>)
    | BlockquoteBlock(id: string, content: ContentTree.Node, color: Option<string>)
  {
    /** The block's `type` discriminant. */
    function Type(): BlockType {
      match this
      case HeadingBlock(_, _, _, _, _) => Heading
      case TextBlock(_, _, _, _) => Text
      case ImageBlock(_, _, _, _, _, _) => Image
      case ButtonBlock(_, _, _, _, _, _, _) => Button
      case HeaderBlock(_, _, _, _) => Header
      case ColumnsBlock(_, _, _, _) => Columns
      case DividerBlock(_, _, _, _) => Divider
      case SpacerBlock(_, _) => Spacer
      case SocialLinksBlock(_, _, _, _) => SocialLinks
      case FooterBlock(_, _, _, _) => Footer
      case ListBlock(_, _, _, _) => List
      case BlockquoteBlock(_, _, _) => Blockquote
    }

    /** Whether the variant carries an `align` field. */
    predicate HasAlign() {
      HeadingBlock? || TextBlock? || ImageBlock? || ButtonBlock? || SocialLinksBlock? || FooterBlock?
    }

    /** No design-system-driven field is set on the block. */
    predicate HasNoOverrides() {
      match this
      case HeadingBlock(_, _, _, _, color) => color.None?
      case TextBlock(_, _, _, color) => color.None?
      case ButtonBlock(_, _, _, bg, fg, radius, _) => bg.None? && fg.None? && radius.None?
      case DividerBlock(_, color, thickness, style) => color.None? && thickness.None? && style.None?
      case FooterBlock(_, _, _, color) => color.None?
      case ListBlock(_, _, _, color) => color.None?
      case BlockquoteBlock(_, _, color) => color.None?
      case _ => true
    }
  }

  /** Exactly the heading, text, image, button, social-links and footer variants carry an alignment. */
  lemma AlignByType(b: EmailBlock)
    ensures b.HasAlign() <==> b.Type() in [Heading, Text, Image, Button, SocialLinks, Footer]
  {
  }

  datatype DocumentSettings = DocumentSettings(backgroundColor: string, contentWidth: int, previewText: Option<string>)

  /** An email: a name, top-level blocks in render order, a weak design-system reference and settings. */
  datatype EmailDocument = EmailDocument(
    name: string,
    blocks: seq<EmailBlock>,
    designSystemId: Option<string>,
    settings: DocumentSettings)
}
