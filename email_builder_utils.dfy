/** The block factory: a new block of each type with its fixed creation defaults. */
module EmailBuilderUtils {
  import opened Wrappers
  import ContentTree
  import TiptapRenderer
  import opened EmailBuilderTypes

  const FooterDefaultText :=
    "\U{C2}\U{A9} 2026 Your Company. All rights reserved.\nUnsubscribe | Privacy Policy"

  /** A paragraph holding one text run. */
  function Paragraph(t: string): ContentTree.Node {
    ContentTree.Container(ContentTree.Paragraph, [ContentTree.TextRun(t)])
  }

  /** A list item holding one paragraph. */
  function Item(t: string): ContentTree.Node {
    ContentTree.Container(ContentTree.ListItem, [Paragraph(t)])
  }

  const DefaultListContent :=
    ContentTree.Container(ContentTree.Doc, [
      ContentTree.Container(ContentTree.BulletList, [Item("List item 1"), Item("List item 2")])])

  const DefaultQuoteContent :=
    ContentTree.Container(ContentTree.Doc, [
      ContentTree.Container(ContentTree.Blockquote, [Paragraph("Your quoted text here...")])])

  const DefaultSocialLinks := [
    SocialLink(Twitter, "https://twitter.com"),
    SocialLink(Facebook, "https://facebook.com"),
    SocialLink(Instagram, "https://instagram.com")]

  /**
   * `createBlock` with the generated id passed in: the result has the
   * requested type and id, and no design-system-driven field is set.
   */
  function CreateBlock(t: BlockType, id: string): (b: EmailBlock)
    ensures b.Type() == t && b.id == id
    ensures b.HasNoOverrides()
  {
    match t
    case Heading => HeadingBlock(id, TiptapRenderer.CreateEmptyContent(Some("Your Heading Here")), 1, Center, None)
    case Text =>
      TextBlock(id, TiptapRenderer.CreateEmptyContent(
        Some("Enter your text here. You can style this text using the properties panel.")), Center, None)
    case Image => ImageBlock(id, "", "Image description", 600, 300, Center)
    case Button => ButtonBlock(id, "Click Here", "#", None, None, None, Center)
    case Header => HeaderBlock(id, "", "Your Brand", true)
    case Columns => ColumnsBlock(id, 2, 16, [[], []])
    case Divider => DividerBlock(id, None, None, None)
    case Spacer => SpacerBlock(id, 32)
    case SocialLinks => SocialLinksBlock(id, DefaultSocialLinks, 24, Center)
    case Footer => FooterBlock(id, TiptapRenderer.CreateEmptyContent(Some(FooterDefaultText)), Center, None)
    case List => ListBlock(id, DefaultListContent, Bullet, None)
    case Blockquote => BlockquoteBlock(id, DefaultQuoteContent, None)
  }

  /** A new heading is a centred level-1 heading whose only text is "Your Heading Here". */
  lemma NewHeading(id: string)
    ensures var b := CreateBlock(Heading, id);
      && b.level == 1 && b.align == Center
      && b.content == TiptapRenderer.CreateEmptyContent(Some("Your Heading Here"))
      && ContentTree.TextContent(b.content) == "Your Heading Here"
  {
    TiptapRenderer.EmptyContentText(Some("Your Heading Here"));
  }

  /** A new columns block has two columns, gap 16, and one empty cell per column. */
  lemma NewColumns(id: string)
    ensures var b := CreateBlock(Columns, id);
      && b.columns == 2 && b.gap == 16 && |b.cells| == b.columns
      && forall i :: 0 <= i < |b.cells| ==> b.cells[i] == []
  {
  }

  /** New image, spacer and social-links blocks get their fixed geometry. */
  lemma NewGeometry(id: string)
    ensures var b := CreateBlock(Image, id); b.src == "" && b.width == 600 && b.height == 300
    ensures CreateBlock(Spacer, id).height == 32
    ensures var b := CreateBlock(SocialLinks, id);
      && b.iconSize == 24 && |b.links| == 3
      && b.links[0].platform == Twitter && b.links[1].platform == Facebook && b.links[2].platform == Instagram
  {
  }

  /** A new list is a bullet list of two items whose text reads "List item 1", "List item 2". */
  lemma NewList(id: string)
    ensures var b := CreateBlock(List, id);
      && b.listType == Bullet
      && b.content.kind == ContentTree.Doc && |b.content.content| == 1
      && b.content.content[0].kind == ContentTree.BulletList && |b.content.content[0].content| == 2
      && (forall i :: 0 <= i < 2 ==> b.content.content[0].content[i].kind == ContentTree.ListItem)
      && ContentTree.TextContent(b.content.content[0].content[0]) == "List item 1"
      && ContentTree.TextContent(b.content.content[0].content[1]) == "List item 2"
      && ContentTree.TextContent(b.content) == "List item 1List item 2"
  {
    ContentTree.ContainerText(ContentTree.Paragraph, [ContentTree.TextRun("List item 1")]);
    ContentTree.ContainerText(ContentTree.Paragraph, [ContentTree.TextRun("List item 2")]);
    ContentTree.ContainerText(ContentTree.ListItem, [Paragraph("List item 1")]);
    ContentTree.ContainerText(ContentTree.ListItem, [Paragraph("List item 2")]);
    ContentTree.ContainerText(ContentTree.BulletList, [Item("List item 1"), Item("List item 2")]);
    ContentTree.ContainerText(ContentTree.Doc, [ContentTree.Container(ContentTree.BulletList, [Item("List item 1"), Item("List item 2")])]);
  }

  /** A new button reads "Click Here" and links to "#"; a new header shows "Your Brand" with the badge and no logo. */
  lemma NewButtonAndHeader(id: string)
    ensures var b := CreateBlock(Button, id); b.text == "Click Here" && b.url == "#" && b.align == Center
    ensures var h := CreateBlock(Header, id); h.brandName == "Your Brand" && h.logoSrc == "" && h.showBadge
  {
  }
}
