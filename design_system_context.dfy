/**
 * The design-system provider: style resolution (block overrides layered
 * over the active token set), the per-category merge of partial tokens,
 * and the list of user design systems with the active-system reference.
 */
module DesignSystemContext {
  import opened Wrappers
  import opened ArrayOps
  import opened DesignSystemTypes
  import opened DesignSystemPresets
  import opened EmailBuilderTypes

  // ---------------------------------------------------------------------
  // Style resolution

  /** The resolved style value of each field a block may need; None where the block type has none. */
  datatype ResolvedBlockStyles = ResolvedBlockStyles(
    color: Option<string>,
    backgroundColor: Option<string>,
    textColor: Option<string>,
    fontFamily: Option<FontFamily>,
    fontSize: Option<int>,
    lineHeight: Option<real>,
    fontWeight: Option<FontWeight>,
    borderRadius: Option<int>,
    borderColor: Option<string>,
    thickness: Option<int>,
    style: Option<BorderStyle>)

  const EmptyStyles := ResolvedBlockStyles(None, None, None, None, None, None, None, None, None, None, None)

  /** The fields a block sets explicitly, as a partial style set. */
  function Overrides(b: EmailBlock): ResolvedBlockStyles {
    match b
    case HeadingBlock(_, _, _, _, color) => EmptyStyles.(color := color)
    case TextBlock(_, _, _, color) => EmptyStyles.(color := color)
    case ButtonBlock(_, _, _, bg, fg, radius, _) =>
      EmptyStyles.(backgroundColor := bg, textColor := fg, borderRadius := radius)
    case DividerBlock(_, color, thickness, style) =>
      EmptyStyles.(color := color, thickness := thickness, style := style)
    case FooterBlock(_, _, _, color) => EmptyStyles.(color := color)
    case ListBlock(_, _, _, color) => EmptyStyles.(color := color)
    case BlockquoteBlock(_, _, color) => EmptyStyles.(color := color)
    case _ => EmptyStyles
  }

  /** The whole token category that drives a block type; the flat block types have none. */
  function CategoryStyles(t: BlockType, tokens: DesignSystemTokens): ResolvedBlockStyles {
    match t
    case Heading =>
      var h := tokens.heading;
      EmptyStyles.(color := Some(h.color), fontFamily := Some(h.fontFamily), fontWeight := Some(h.fontWeight))
    case Text =>
      var x := tokens.text;
      EmptyStyles.(color := Some(x.color), fontFamily := Some(x.fontFamily), fontSize := Some(x.fontSize),
                   lineHeight := Some(x.lineHeight))
    case Button =>
      var x := tokens.button;
      EmptyStyles.(backgroundColor := Some(x.backgroundColor), textColor := Some(x.textColor),
                   borderRadius := Some(x.borderRadius), fontFamily := Some(x.fontFamily))
    case Divider =>
      var x := tokens.divider;
      EmptyStyles.(color := Some(x.color), thickness := Some(x.thickness), style := Some(x.style))
    case Footer =>
      var x := tokens.footer;
      EmptyStyles.(color := Some(x.color), fontFamily := Some(x.fontFamily), fontSize := Some(x.fontSize))
    case List =>
      var x := tokens.list;
      EmptyStyles.(color := Some(x.color), fontFamily := Some(x.fontFamily))
    case Blockquote =>
      var x := tokens.blockquote;
      EmptyStyles.(color := Some(x.color), borderColor := Some(x.borderColor), fontFamily := Some(x.fontFamily))
    case _ => EmptyStyles
  }

  /** Field by field: a value present in `top` wins, otherwise the value of `base`. */
  function Overlay(top: ResolvedBlockStyles, base: ResolvedBlockStyles): ResolvedBlockStyles {
    ResolvedBlockStyles(
      if top.color.Some? then top.color else base.color,
      if top.backgroundColor.Some? then top.backgroundColor else base.backgroundColor,
      if top.textColor.Some? then top.textColor else base.textColor,
      if top.fontFamily.Some? then top.fontFamily else base.fontFamily,
      if top.fontSize.Some? then top.fontSize else base.fontSize,
      if top.lineHeight.Some? then top.lineHeight else base.lineHeight,
      if top.fontWeight.Some? then top.fontWeight else base.fontWeight,
      if top.borderRadius.Some? then top.borderRadius else base.borderRadius,
      if top.borderColor.Some? then top.borderColor else base.borderColor,
      if top.thickness.Some? then top.thickness else base.thickness,
      if top.style.Some? then top.style else base.style)
  }

  /**
   * The resolver: per block type, each design-system-driven field is the
   * block's own value when present (`??`) and the token value otherwise.
   */
  function ResolveStyles(block: EmailBlock, tokens: DesignSystemTokens): (r: ResolvedBlockStyles)
    ensures r == Overlay(Overrides(block), CategoryStyles(block.Type(), tokens))
  {
    match block
    case HeadingBlock(_, _, _, _, color) =>
      EmptyStyles.(color := Some(color.GetOr(tokens.heading.color)),
                   fontFamily := Some(tokens.heading.fontFamily),
                   fontWeight := Some(tokens.heading.fontWeight))
    case TextBlock(_, _, _, color) =>
      EmptyStyles.(color := Some(color.GetOr(tokens.text.color)),
                   fontFamily := Some(tokens.text.fontFamily),
                   fontSize := Some(tokens.text.fontSize),
                   lineHeight := Some(tokens.text.lineHeight))
    case ButtonBlock(_, _, _, bg, fg, radius, _) =>
      EmptyStyles.(backgroundColor := Some(bg.GetOr(tokens.button.backgroundColor)),
                   textColor := Some(fg.GetOr(tokens.button.textColor)),
                   borderRadius := Some(radius.GetOr(tokens.button.borderRadius)),
                   fontFamily := Some(tokens.button.fontFamily))
    case DividerBlock(_, color, thickness, style) =>
      EmptyStyles.(color := Some(color.GetOr(tokens.divider.color)),
                   thickness := Some(thickness.GetOr(tokens.divider.thickness)),
                   style := Some(style.GetOr(tokens.divider.style)))
    case FooterBlock(_, _, _, color) =>
      EmptyStyles.(color := Some(color.GetOr(tokens.footer.color)),
                   fontFamily := Some(tokens.footer.fontFamily),
                   fontSize := Some(tokens.footer.fontSize))
    case ListBlock(_, _, _, color) =>
      EmptyStyles.(color := Some(color.GetOr(tokens.list.color)),
                   fontFamily := Some(tokens.list.fontFamily))
    case BlockquoteBlock(_, _, color) =>
      EmptyStyles.(color := Some(color.GetOr(tokens.blockquote.color)),
                   borderColor := Some(tokens.blockquote.borderColor),
                   fontFamily := Some(tokens.blockquote.fontFamily))
    case _ => EmptyStyles
  }

  /** Every field a block sets is the resolved value, whatever the tokens. */
  lemma OverrideWins(block: EmailBlock, tokens: DesignSystemTokens)
    ensures var o, r := Overrides(block), ResolveStyles(block, tokens);
      && (o.color.Some? ==> r.color == o.color)
      && (o.backgroundColor.Some? ==> r.backgroundColor == o.backgroundColor)
      && (o.textColor.Some? ==> r.textColor == o.textColor)
      && (o.borderRadius.Some? ==> r.borderRadius == o.borderRadius)
      && (o.thickness.Some? ==> r.thickness == o.thickness)
      && (o.style.Some? ==> r.style == o.style)
  {
  }

  /** A block without overrides, such as a freshly created one, resolves to its token category unchanged. */
  lemma NoOverridesMeansTokens(block: EmailBlock, tokens: DesignSystemTokens)
    requires block.HasNoOverrides()
    ensures ResolveStyles(block, tokens) == CategoryStyles(block.Type(), tokens)
  {
  }

  /**
   * The fields that have no override (font family, weight, size, line height,
   * blockquote border colour) are the same for every block of one type.
   */
  lemma TokenOnlyFields(b1: EmailBlock, b2: EmailBlock, tokens: DesignSystemTokens)
    requires b1.Type() == b2.Type()
    ensures var r1, r2 := ResolveStyles(b1, tokens), ResolveStyles(b2, tokens);
      && r1.fontFamily == r2.fontFamily && r1.fontWeight == r2.fontWeight
      && r1.fontSize == r2.fontSize && r1.lineHeight == r2.lineHeight
      && r1.borderColor == r2.borderColor
  {
  }

  /** Image, header, columns, spacer and social-links blocks, and only they, resolve to the empty style set. */
  lemma FlatBlocksResolveEmpty(block: EmailBlock, tokens: DesignSystemTokens)
    ensures ResolveStyles(block, tokens) == EmptyStyles <==>
      block.Type() in {Image, Header, Columns, Spacer, SocialLinks}
  {
  }

  /** An overridden button colour survives switching to the corporate preset (whose button colour is "#2563eb"). */
  lemma ButtonOverrideBeatsPreset(b: EmailBlock)
    requires b.ButtonBlock? && b.backgroundColor == Some("#ff0000")
    ensures BoldCorporate.tokens.button.backgroundColor == "#2563eb"
    ensures ResolveStyles(b, BoldCorporate.tokens).backgroundColor == Some("#ff0000")
  {
  }

  // ---------------------------------------------------------------------
  // Merging partial tokens

  function MergeHeading(e: HeadingTokens, u: PartialHeadingTokens): HeadingTokens {
    HeadingTokens(u.color.GetOr(e.color), u.fontFamily.GetOr(e.fontFamily), u.fontWeight.GetOr(e.fontWeight))
  }

  function MergeText(e: TextTokens, u: PartialTextTokens): TextTokens {
    TextTokens(u.color.GetOr(e.color), u.fontFamily.GetOr(e.fontFamily), u.fontSize.GetOr(e.fontSize),
               u.lineHeight.GetOr(e.lineHeight))
  }

  function MergeButton(e: ButtonTokens, u: PartialButtonTokens): ButtonTokens {
    ButtonTokens(u.backgroundColor.GetOr(e.backgroundColor), u.textColor.GetOr(e.textColor),
                 u.borderRadius.GetOr(e.borderRadius), u.fontFamily.GetOr(e.fontFamily))
  }

  function MergeDivider(e: DividerTokens, u: PartialDividerTokens): DividerTokens {
    DividerTokens(u.color.GetOr(e.color), u.thickness.GetOr(e.thickness), u.style.GetOr(e.style))
  }

  function MergeFooter(e: FooterTokens, u: PartialFooterTokens): FooterTokens {
    FooterTokens(u.color.GetOr(e.color), u.fontFamily.GetOr(e.fontFamily), u.fontSize.GetOr(e.fontSize))
  }

  function MergeList(e: ListTokens, u: PartialListTokens): ListTokens {
    ListTokens(u.color.GetOr(e.color), u.fontFamily.GetOr(e.fontFamily))
  }

  function MergeBlockquote(e: BlockquoteTokens, u: PartialBlockquoteTokens): BlockquoteTokens {
    BlockquoteTokens(u.color.GetOr(e.color), u.borderColor.GetOr(e.borderColor), u.fontFamily.GetOr(e.fontFamily))
  }

  function MergeGlobal(e: GlobalTokens, u: PartialGlobalTokens): GlobalTokens {
    GlobalTokens(u.backgroundColor.GetOr(e.backgroundColor), u.contentWidth.GetOr(e.contentWidth),
                 u.fontFamily.GetOr(e.fontFamily))
  }

  /** The merged token set: each category named by the update is `{...existing, ...update}`, the others are kept. */
  function MergedTokens(e: DesignSystemTokens, u: PartialDesignSystemTokens): DesignSystemTokens {
    DesignSystemTokens(
      if u.heading.Some? then MergeHeading(e.heading, u.heading.value) else e.heading,
      if u.text.Some? then MergeText(e.text, u.text.value) else e.text,
      if u.button.Some? then MergeButton(e.button, u.button.value) else e.button,
      if u.divider.Some? then MergeDivider(e.divider, u.divider.value) else e.divider,
      if u.footer.Some? then MergeFooter(e.footer, u.footer.value) else e.footer,
      if u.list.Some? then MergeList(e.list, u.list.value) else e.list,
      if u.blockquote.Some? then MergeBlockquote(e.blockquote, u.blockquote.value) else e.blockquote,
      if u.global.Some? then MergeGlobal(e.global, u.global.value) else e.global)
  }

  /** Whether the update names category `c`. */
  predicate Names(u: PartialDesignSystemTokens, c: TokenCategory) {
    match c
    case HeadingCategory => u.heading.Some?
    case TextCategory => u.text.Some?
    case ButtonCategory => u.button.Some?
    case DividerCategory => u.divider.Some?
    case FooterCategory => u.footer.Some?
    case ListCategory => u.list.Some?
    case BlockquoteCategory => u.blockquote.Some?
    case GlobalCategory => u.global.Some?
  }

  /** Whether two token sets agree on category `c`. */
  predicate SameCategory(t1: DesignSystemTokens, t2: DesignSystemTokens, c: TokenCategory) {
    match c
    case HeadingCategory => t1.heading == t2.heading
    case TextCategory => t1.text == t2.text
    case ButtonCategory => t1.button == t2.button
    case DividerCategory => t1.divider == t2.divider
    case FooterCategory => t1.footer == t2.footer
    case ListCategory => t1.list == t2.list
    case BlockquoteCategory => t1.blockquote == t2.blockquote
    case GlobalCategory => t1.global == t2.global
  }

  /** One step of the merge loop: category `c` of `result` becomes the merge of `existing`'s, if the update names it. */
  function MergeCategory(result: DesignSystemTokens, e: DesignSystemTokens, u: PartialDesignSystemTokens,
                         c: TokenCategory): DesignSystemTokens {
    match c
    case HeadingCategory => if u.heading.Some? then result.(heading := MergeHeading(e.heading, u.heading.value)) else result
    case TextCategory => if u.text.Some? then result.(text := MergeText(e.text, u.text.value)) else result
    case ButtonCategory => if u.button.Some? then result.(button := MergeButton(e.button, u.button.value)) else result
    case DividerCategory => if u.divider.Some? then result.(divider := MergeDivider(e.divider, u.divider.value)) else result
    case FooterCategory => if u.footer.Some? then result.(footer := MergeFooter(e.footer, u.footer.value)) else result
    case ListCategory => if u.list.Some? then result.(list := MergeList(e.list, u.list.value)) else result
    case BlockquoteCategory =>
      if u.blockquote.Some? then result.(blockquote := MergeBlockquote(e.blockquote, u.blockquote.value)) else result
    case GlobalCategory => if u.global.Some? then result.(global := MergeGlobal(e.global, u.global.value)) else result
  }

  /** The token set after the merge loop has visited the first `i` categories. */
  function MergeFirst(e: DesignSystemTokens, u: PartialDesignSystemTokens, i: nat): DesignSystemTokens
    requires i <= |Categories|
  {
    if i == 0 then e else MergeCategory(MergeFirst(e, u, i - 1), e, u, Categories[i - 1])
  }

  /** Visiting all eight categories yields the merged token set. */
  lemma MergeFirstAll(e: DesignSystemTokens, u: PartialDesignSystemTokens)
    ensures MergeFirst(e, u, |Categories|) == MergedTokens(e, u)
  {
    var m := MergedTokens(e, u);
    assert MergeFirst(e, u, 1) == e.(heading := m.heading);
    assert MergeFirst(e, u, 2) == e.(heading := m.heading, text := m.text);
    assert MergeFirst(e, u, 3) == e.(heading := m.heading, text := m.text, button := m.button);
    assert MergeFirst(e, u, 4) == e.(heading := m.heading, text := m.text, button := m.button, divider := m.divider);
    assert MergeFirst(e, u, 5) == m.(list := e.list, blockquote := e.blockquote, global := e.global);
    assert MergeFirst(e, u, 6) == m.(blockquote := e.blockquote, global := e.global);
    assert MergeFirst(e, u, 7) == m.(global := e.global);
  }

  /** `mergeTokens`: a loop over the keys of the update, merging each named category into the result. */
  method MergeTokens(existing: DesignSystemTokens, updates: PartialDesignSystemTokens) returns (result: DesignSystemTokens)
    ensures result == MergedTokens(existing, updates)
  {
    result := existing;
    for i := 0 to |Categories|
      invariant result == MergeFirst(existing, updates, i)
    {
      result := MergeCategory(result, existing, updates, Categories[i]);
    }
    MergeFirstAll(existing, updates);
  }

  /**
   * Categories the update does not name are unchanged; in a named category
   * every field the update supplies is taken and every other field is kept.
   */
  lemma MergeTouchesOnlyNamedCategories(e: DesignSystemTokens, u: PartialDesignSystemTokens, c: TokenCategory)
    ensures !Names(u, c) ==> SameCategory(MergedTokens(e, u), e, c)
    ensures Names(u, c) && c == HeadingCategory ==>
      var m, h := MergedTokens(e, u).heading, u.heading.value;
      && TakesOrKeeps(h.color, e.heading.color, m.color)
      && TakesOrKeeps(h.fontFamily, e.heading.fontFamily, m.fontFamily)
      && TakesOrKeeps(h.fontWeight, e.heading.fontWeight, m.fontWeight)
    ensures Names(u, c) && c == TextCategory ==>
      var m, t := MergedTokens(e, u).text, u.text.value;
      && TakesOrKeeps(t.color, e.text.color, m.color)
      && TakesOrKeeps(t.fontFamily, e.text.fontFamily, m.fontFamily)
      && TakesOrKeeps(t.fontSize, e.text.fontSize, m.fontSize)
      && TakesOrKeeps(t.lineHeight, e.text.lineHeight, m.lineHeight)
    ensures Names(u, c) && c == ButtonCategory ==>
      var m, b := MergedTokens(e, u).button, u.button.value;
      && TakesOrKeeps(b.backgroundColor, e.button.backgroundColor, m.backgroundColor)
      && TakesOrKeeps(b.textColor, e.button.textColor, m.textColor)
      && TakesOrKeeps(b.borderRadius, e.button.borderRadius, m.borderRadius)
      && TakesOrKeeps(b.fontFamily, e.button.fontFamily, m.fontFamily)
    ensures Names(u, c) && c == DividerCategory ==>
      var m, d := MergedTokens(e, u).divider, u.divider.value;
      && TakesOrKeeps(d.color, e.divider.color, m.color)
      && TakesOrKeeps(d.thickness, e.divider.thickness, m.thickness)
      && TakesOrKeeps(d.style, e.divider.style, m.style)
    ensures Names(u, c) && c == FooterCategory ==>
      var m, f := MergedTokens(e, u).footer, u.footer.value;
      && TakesOrKeeps(f.color, e.footer.color, m.color)
      && TakesOrKeeps(f.fontFamily, e.footer.fontFamily, m.fontFamily)
      && TakesOrKeeps(f.fontSize, e.footer.fontSize, m.fontSize)
    ensures Names(u, c) && c == ListCategory ==>
      var m, l := MergedTokens(e, u).list, u.list.value;
      && TakesOrKeeps(l.color, e.list.color, m.color)
      && TakesOrKeeps(l.fontFamily, e.list.fontFamily, m.fontFamily)
    ensures Names(u, c) && c == BlockquoteCategory ==>
      var m, q := MergedTokens(e, u).blockquote, u.blockquote.value;
      && TakesOrKeeps(q.color, e.blockquote.color, m.color)
      && TakesOrKeeps(q.borderColor, e.blockquote.borderColor, m.borderColor)
      && TakesOrKeeps(q.fontFamily, e.blockquote.fontFamily, m.fontFamily)
    ensures Names(u, c) && c == GlobalCategory ==>
      var m, g := MergedTokens(e, u).global, u.global.value;
      && TakesOrKeeps(g.backgroundColor, e.global.backgroundColor, m.backgroundColor)
      && TakesOrKeeps(g.contentWidth, e.global.contentWidth, m.contentWidth)
      && TakesOrKeeps(g.fontFamily, e.global.fontFamily, m.fontFamily)
  {
  }

  /** The update that names nothing changes nothing. */
  lemma MergeNothing(e: DesignSystemTokens)
    ensures MergedTokens(e, NoTokenUpdates) == e
  {
  }

  /** Merging the same update twice is the same as merging it once. */
  lemma MergeIdempotent(e: DesignSystemTokens, u: PartialDesignSystemTokens)
    ensures MergedTokens(MergedTokens(e, u), u) == MergedTokens(e, u)
  {
  }

  // ---------------------------------------------------------------------
  // The design-system list

  /** The updates `updateDesignSystem` accepts: an optional name and optional partial tokens. */
  datatype DesignSystemUpdates = DesignSystemUpdates(name: Option<string>, tokens: Option<PartialDesignSystemTokens>)

  /** The first design system with `id`, if any. */
  function FindSystem(systems: seq<DesignSystem>, id: string): (r: Option<DesignSystem>)
    ensures r.None? <==> forall i :: 0 <= i < |systems| ==> systems[i].id != id
    ensures r.Some? ==> r.value.id == id && r.value in systems
    ensures r.Some? ==>
      exists k :: 0 <= k < |systems| && systems[k] == r.value && (forall i :: 0 <= i < k ==> systems[i].id != id)
  {
    Find(systems, (ds: DesignSystem) => ds.id == id)
  }

  /** One system after `updateDesignSystem`: new name if given, merged tokens if given, stamped `now`. */
  function ApplySystemUpdates(ds: DesignSystem, updates: DesignSystemUpdates, now: int): (r: DesignSystem)
    ensures r.id == ds.id && r.createdAt == ds.createdAt && r.updatedAt == now
    ensures r.name == if updates.name.Some? then updates.name.value else ds.name
    ensures updates.tokens.None? ==> r.tokens == ds.tokens
    ensures updates.tokens.Some? ==> r.tokens == MergedTokens(ds.tokens, updates.tokens.value)
  {
    var tokens := if updates.tokens.Some? then MergedTokens(ds.tokens, updates.tokens.value) else ds.tokens;
    ds.(name := updates.name.GetOr(ds.name), tokens := tokens, updatedAt := now)
  }

  /** The user list after updating `id`: every system with that id is updated, every other one is kept. */
  function UpdateSystems(systems: seq<DesignSystem>, id: string, updates: DesignSystemUpdates, now: int): (r: seq<DesignSystem>)
    ensures |r| == |systems|
    ensures forall i :: 0 <= i < |systems| && systems[i].id != id ==> r[i] == systems[i]
    ensures forall i :: 0 <= i < |systems| && systems[i].id == id ==> r[i] == ApplySystemUpdates(systems[i], updates, now)
  {
    MapWhere(systems, (ds: DesignSystem) => ds.id == id, (ds: DesignSystem) => ApplySystemUpdates(ds, updates, now))
  }

  /** Repeating an update at the same time stamp changes nothing more. */
  lemma UpdateSystemsIdempotent(systems: seq<DesignSystem>, id: string, updates: DesignSystemUpdates, now: int)
    ensures UpdateSystems(UpdateSystems(systems, id, updates, now), id, updates, now) == UpdateSystems(systems, id, updates, now)
  {
    var once := UpdateSystems(systems, id, updates, now);
    var twice := UpdateSystems(once, id, updates, now);
    forall i | 0 <= i < |systems| ensures twice[i] == once[i] {
      if systems[i].id == id && updates.tokens.Some? {
        MergeIdempotent(systems[i].tokens, updates.tokens.value);
      }
    }
  }

  /** The user list after deleting `id`: every system with that id is removed, the rest kept in order. */
  function RemoveSystems(systems: seq<DesignSystem>, id: string): (r: seq<DesignSystem>)
    ensures forall ds :: ds in r ==> ds.id != id
    ensures forall ds :: ds in systems && ds.id != id ==> multiset(r)[ds] == multiset(systems)[ds]
    ensures |r| <= |systems|
  {
    Filter(systems, (ds: DesignSystem) => ds.id != id)
  }

  /** Deletion keeps the surviving systems in their order: it works element by element and distributes over concatenation. */
  lemma RemoveSystemsInOrder(s: seq<DesignSystem>, t: seq<DesignSystem>, x: DesignSystem, id: string)
    ensures RemoveSystems(s + t, id) == RemoveSystems(s, id) + RemoveSystems(t, id)
    ensures RemoveSystems([x], id) == if x.id == id then [] else [x]
  {
    FilterAppend(s, t, (ds: DesignSystem) => ds.id != id);
  }

  /** After a deletion of a user id, no available system carries that id, so no reference to it can resolve. */
  lemma DeletedIdUnavailable(user: seq<DesignSystem>, id: string)
    requires !IsPresetId(id)
    ensures FindSystem(PresetDesignSystems + RemoveSystems(user, id), id).None?
  {
    var all := PresetDesignSystems + RemoveSystems(user, id);
    forall i | 0 <= i < |all| ensures all[i].id != id {
      if i >= |PresetDesignSystems| {
        assert all[i] in RemoveSystems(user, id);
      }
    }
  }

  /** The design-system provider's state: the user systems and the active id. */
  class DesignSystemProvider {
    var userDesignSystems: seq<DesignSystem>
    var activeDesignSystemId: Option<string>

    constructor ()
      ensures userDesignSystems == [] && activeDesignSystemId == None
    {
      userDesignSystems := [];
      activeDesignSystemId := None;
    }

    /** On mount: adopt the stored list when one was read and parsed; otherwise start from what is there. */
    method LoadStored(stored: Option<seq<DesignSystem>>)
      modifies this
      ensures userDesignSystems == if stored.Some? then stored.value else old(userDesignSystems)
      ensures activeDesignSystemId == old(activeDesignSystemId)
    {
      if stored.Some? {
        userDesignSystems := stored.value;
      }
    }

    /** All available systems: the presets, then the user systems. */
    function DesignSystems(): (r: seq<DesignSystem>)
      reads this
      ensures |r| == |PresetDesignSystems| + |userDesignSystems|
      ensures r[..|PresetDesignSystems|] == PresetDesignSystems && r[|PresetDesignSystems|..] == userDesignSystems
    {
      PresetDesignSystems + userDesignSystems
    }

    /** The active system: none when the id is null or empty, else the first available system with that id. */
    function ActiveDesignSystem(): (r: Option<DesignSystem>)
      reads this
      ensures !Truthy(activeDesignSystemId) ==> r.None?
      ensures Truthy(activeDesignSystemId) ==> r == FindSystem(DesignSystems(), activeDesignSystemId.value)
    {
      if !Truthy(activeDesignSystemId) then None
      else FindSystem(DesignSystems(), activeDesignSystemId.value)
    }

    /** The tokens resolution uses: the active system's, or the defaults. */
    function ActiveTokens(): (t: DesignSystemTokens)
      reads this
      ensures ActiveDesignSystem().Some? ==> t == ActiveDesignSystem().value.tokens
      ensures ActiveDesignSystem().None? ==> t == DefaultTokens
    {
      match ActiveDesignSystem()
      case Some(ds) => ds.tokens
      case None => DefaultTokens
    }

    /** `resolveBlockStyles` of the provider: resolution against the active tokens, or the defaults. */
    function ResolveBlockStyles(block: EmailBlock): (r: ResolvedBlockStyles)
      reads this
      ensures ActiveDesignSystem().None? ==> r == ResolveStyles(block, DefaultTokens)
      ensures ActiveDesignSystem().Some? ==> r == ResolveStyles(block, ActiveDesignSystem().value.tokens)
    {
      ResolveStyles(block, ActiveTokens())
    }

    method SetActiveDesignSystemId(id: Option<string>)
      modifies this
      ensures activeDesignSystemId == id && userDesignSystems == old(userDesignSystems)
    {
      activeDesignSystemId := id;
    }

    /** Appends a new system with the default tokens and returns it. */
    method CreateUserDesignSystem(name: string, newId: string, now: int) returns (ds: DesignSystem)
      modifies this
      ensures ds == CreateDesignSystem(name, newId, now)
      ensures userDesignSystems == old(userDesignSystems) + [ds]
      ensures activeDesignSystemId == old(activeDesignSystemId)
    {
      ds := CreateDesignSystem(name, newId, now);
      userDesignSystems := userDesignSystems + [ds];
    }

    /** Presets are left alone; otherwise every user system with `id` is updated. */
    method UpdateDesignSystem(id: string, updates: DesignSystemUpdates, now: int)
      modifies this
      ensures IsPresetId(id) ==> userDesignSystems == old(userDesignSystems)
      ensures !IsPresetId(id) ==> userDesignSystems == UpdateSystems(old(userDesignSystems), id, updates, now)
      ensures activeDesignSystemId == old(activeDesignSystemId)
    {
      if IsPresetId(id) {
        return;
      }
      userDesignSystems := UpdateSystems(userDesignSystems, id, updates, now);
    }

    /** Presets are left alone; otherwise every user system with `id` goes, and the active id is cleared if it was `id`. */
    method DeleteDesignSystem(id: string)
      modifies this
      ensures IsPresetId(id) ==>
        userDesignSystems == old(userDesignSystems) && activeDesignSystemId == old(activeDesignSystemId)
      ensures !IsPresetId(id) ==> userDesignSystems == RemoveSystems(old(userDesignSystems), id)
      ensures !IsPresetId(id) ==>
        activeDesignSystemId == if old(activeDesignSystemId) == Some(id) then None else old(activeDesignSystemId)
      ensures !IsPresetId(id) && old(activeDesignSystemId) == Some(id) ==> ActiveTokens() == DefaultTokens
    {
      if IsPresetId(id) {
        return;
      }
      userDesignSystems := RemoveSystems(userDesignSystems, id);
      if activeDesignSystemId == Some(id) {
        activeDesignSystemId := None;
      }
    }

    /** Copies an available system under the name "<name> (Copy)"; an unknown id gives None and changes nothing. */
    method DuplicateDesignSystem(id: string, newId: string, now: int) returns (r: Option<DesignSystem>)
      modifies this
      ensures FindSystem(old(DesignSystems()), id).None? ==> r.None? && userDesignSystems == old(userDesignSystems)
      ensures FindSystem(old(DesignSystems()), id).Some? ==>
        var source := FindSystem(old(DesignSystems()), id).value;
        && r == Some(DesignSystem(newId, source.name + " (Copy)", source.tokens, now, now))
        && userDesignSystems == old(userDesignSystems) + [r.value]
      ensures activeDesignSystemId == old(activeDesignSystemId)
    {
      var source := FindSystem(DesignSystems(), id);
      if source.None? {
        return None;
      }
      var duplicate := CreateDesignSystem(source.value.name + " (Copy)", newId, now);
      duplicate := duplicate.(tokens := source.value.tokens, createdAt := now, updatedAt := now);
      userDesignSystems := userDesignSystems + [duplicate];
      r := Some(duplicate);
    }
  }
}
