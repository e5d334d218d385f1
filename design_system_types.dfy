/**
 * The design-system ("brand kit") token schema: eight token categories,
 * one flat record per category, the design-system record, and the partial
 * form used to update tokens.
 */
module DesignSystemTypes {
  import opened Wrappers

  /** The six email-safe font stacks (`EmailFontFamily`). */
  datatype FontFamily = Arial | Georgia | Verdana | Trebuchet | CourierNew | Tahoma {
    /** The CSS `font-family` value the variant stands for. */
    function Css(): string {
      match this
      case Arial => "Arial, Helvetica, sans-serif"
      case Georgia => "Georgia, Times New Roman, serif"
      case Verdana => "Verdana, Geneva, sans-serif"
      case Trebuchet => "Trebuchet MS, sans-serif"
      case CourierNew => "Courier New, monospace"
      case Tahoma => "Tahoma, sans-serif"
    }
  }

  /** Heading font weights, "400" to "800" in steps of 100. */
  datatype FontWeight = W400 | W500 | W600 | W700 | W800 {
    function Css(): string {
      match this
      case W400 => "400"
      case W500 => "500"
      case W600 => "600"
      case W700 => "700"
      case W800 => "800"
    }
  }

  /** Divider line styles; the same three values are used by divider blocks. */
  datatype BorderStyle = Solid | Dashed | Dotted {
    function Css(): string {
      match this
      case Solid => "solid"
      case Dashed => "dashed"
      case Dotted => "dotted"
    }
  }

  datatype HeadingTokens = HeadingTokens(color: string, fontFamily: FontFamily, fontWeight: FontWeight)
  datatype TextTokens = TextTokens(color: string, fontFamily: FontFamily, fontSize: int, lineHeight: real)
  datatype ButtonTokens = ButtonTokens(backgroundColor: string, textColor: string, borderRadius: int, fontFamily: FontFamily)
  datatype DividerTokens = DividerTokens(color: string, thickness: int, style: BorderStyle)
  datatype FooterTokens = FooterTokens(color: string, fontFamily: FontFamily, fontSize: int)
  datatype ListTokens = ListTokens(color: string, fontFamily: FontFamily)
  datatype BlockquoteTokens = BlockquoteTokens(color: string, borderColor: string, fontFamily: FontFamily)
  datatype GlobalTokens = GlobalTokens(backgroundColor: string, contentWidth: int, fontFamily: FontFamily)

  /** The complete token set: exactly one record per category. */
  datatype DesignSystemTokens = DesignSystemTokens(
    heading: HeadingTokens,
    text: TextTokens,
    button: ButtonTokens,
    divider: DividerTokens,
    footer: FooterTokens,
    list: ListTokens,
    blockquote: BlockquoteTokens,
    global: GlobalTokens)

  /** A complete design system. */
  datatype DesignSystem = DesignSystem(id: string, name: string, tokens: DesignSystemTokens, createdAt: int, updatedAt: int)

  /** The keys of a token record. */
  datatype TokenCategory =
    HeadingCategory | TextCategory | ButtonCategory | DividerCategory |
    FooterCategory | ListCategory | BlockquoteCategory | GlobalCategory {
    function Key(): string {
      match this
      case HeadingCategory => "heading"
      case TextCategory => "text"
      case ButtonCategory => "button"
      case DividerCategory => "divider"
      case FooterCategory => "footer"
      case ListCategory => "list"
      case BlockquoteCategory => "blockquote"
      case GlobalCategory => "global"
    }
  }

  /** The categories in the order the token record declares them. */
  const Categories: seq<TokenCategory> := [
    HeadingCategory, TextCategory, ButtonCategory, DividerCategory,
    FooterCategory, ListCategory, BlockquoteCategory, GlobalCategory]

  /** The record has exactly eight categories, each listed once and with its own key. */
  lemma CategoriesAreTheEightKeys()
    ensures |Categories| == 8
    ensures forall c: TokenCategory :: c in Categories
    ensures forall i, j :: 0 <= i < j < |Categories| ==> Categories[i].Key() != Categories[j].Key()
  {
    forall c: TokenCategory ensures c in Categories {
      match c
      case HeadingCategory =>
      case TextCategory =>
      case ButtonCategory =>
      case DividerCategory =>
      case FooterCategory =>
      case ListCategory =>
      case BlockquoteCategory =>
      case GlobalCategory =>
    }
  }

  // Partial tokens: every category is optional, and so is every field inside one.
  datatype PartialHeadingTokens = PartialHeadingTokens(color: Option<string>, fontFamily: Option<FontFamily>, fontWeight: Option<FontWeight>)
  datatype PartialTextTokens = PartialTextTokens(color: Option<string>, fontFamily: Option<FontFamily>, fontSize: Option<int>, lineHeight: Option<real>)
  datatype PartialButtonTokens = PartialButtonTokens(backgroundColor: Option<string>, textColor: Option<string>, borderRadius: Option<int>, fontFamily: Option<FontFamily>)
  datatype PartialDividerTokens = PartialDividerTokens(color: Option<string>, thickness: Option<int>, style: Option<BorderStyle>)
  datatype PartialFooterTokens = PartialFooterTokens(color: Option<string>, fontFamily: Option<FontFamily>, fontSize: Option<int>)
  datatype PartialListTokens = PartialListTokens(color: Option<string>, fontFamily: Option<FontFamily>)
  datatype PartialBlockquoteTokens = PartialBlockquoteTokens(color: Option<string>, borderColor: Option<string>, fontFamily: Option<FontFamily>)
  datatype PartialGlobalTokens = PartialGlobalTokens(backgroundColor: Option<string>, contentWidth: Option<int>, fontFamily: Option<FontFamily>)

  datatype PartialDesignSystemTokens = PartialDesignSystemTokens(
    heading: Option<PartialHeadingTokens>,
    text: Option<PartialTextTokens>,
    button: Option<PartialButtonTokens>,
    divider: Option<PartialDividerTokens>,
    footer: Option<PartialFooterTokens>,
    list: Option<PartialListTokens>,
    blockquote: Option<PartialBlockquoteTokens>,
    global: Option<PartialGlobalTokens>)

  /** The update that names no category. */
  const NoTokenUpdates := PartialDesignSystemTokens(None, None, None, None, None, None, None, None)
}
