/** The default token set, the three built-in presets and the constructor of a fresh design system. */
module DesignSystemPresets {
  import opened DesignSystemTypes

  /** The tokens used when no design system is active. */
  const DefaultTokens := DesignSystemTokens(
    HeadingTokens("#000000", Arial, W700),
    TextTokens("#374151", Arial, 16, 1.6),
    ButtonTokens("#000000", "#ffffff", 4, Arial),
    DividerTokens("#e5e7eb", 1, Solid),
    FooterTokens("#6b7280", Arial, 14),
    ListTokens("#374151", Arial),
    BlockquoteTokens("#6b7280", "#e5e7eb", Georgia),
    GlobalTokens("#f3f4f6", 600, Arial))

  const ModernMinimal := DesignSystem("modern-minimal", "Modern Minimal", DesignSystemTokens(
    HeadingTokens("#111827", Arial, W600),
    TextTokens("#374151", Arial, 16, 1.7),
    ButtonTokens("#111827", "#ffffff", 6, Arial),
    DividerTokens("#e5e7eb", 1, Solid),
    FooterTokens("#9ca3af", Arial, 12),
    ListTokens("#374151", Arial),
    BlockquoteTokens("#6b7280", "#d1d5db", Georgia),
    GlobalTokens("#ffffff", 600, Arial)), 0, 0)

  const BoldCorporate := DesignSystem("bold-corporate", "Bold Corporate", DesignSystemTokens(
    HeadingTokens("#1e3a8a", Arial, W800),
    TextTokens("#1f2937", Arial, 16, 1.6),
    ButtonTokens("#2563eb", "#ffffff", 4, Arial),
    DividerTokens("#3b82f6", 2, Solid),
    FooterTokens("#6b7280", Arial, 12),
    ListTokens("#1f2937", Arial),
    BlockquoteTokens("#1e40af", "#3b82f6", Georgia),
    GlobalTokens("#f8fafc", 600, Arial)), 0, 0)

  const WarmFriendly := DesignSystem("warm-friendly", "Warm & Friendly", DesignSystemTokens(
    HeadingTokens("#92400e", Georgia, W700),
    TextTokens("#78350f", Georgia, 17, 1.8),
    ButtonTokens("#f59e0b", "#78350f", 24, Georgia),
    DividerTokens("#fcd34d", 1, Dashed),
    FooterTokens("#a16207", Georgia, 13),
    ListTokens("#78350f", Georgia),
    BlockquoteTokens("#92400e", "#fbbf24", Georgia),
    GlobalTokens("#fffbeb", 560, Georgia)), 0, 0)

  /** The read-only built-in design systems, in display order. */
  const PresetDesignSystems: seq<DesignSystem> := [ModernMinimal, BoldCorporate, WarmFriendly]

  /** Whether `id` names a built-in preset (`PRESET_DESIGN_SYSTEMS.some(p => p.id === id)`). */
  predicate IsPresetId(id: string)
    ensures IsPresetId(id) ==> id != ""
  {
    exists i :: 0 <= i < |PresetDesignSystems| && PresetDesignSystems[i].id == id
  }

  /** Exactly three presets, with three distinct ids, all created and updated at time 0. */
  lemma PresetsShape()
    ensures |PresetDesignSystems| == 3
    ensures forall i, j :: 0 <= i < j < |PresetDesignSystems| ==> PresetDesignSystems[i].id != PresetDesignSystems[j].id
    ensures forall i :: 0 <= i < |PresetDesignSystems| ==>
      PresetDesignSystems[i].createdAt == 0 && PresetDesignSystems[i].updatedAt == 0
  {
  }

  /** The preset ids are exactly the three reserved names. */
  lemma PresetIds(id: string)
    ensures IsPresetId(id) <==> id == "modern-minimal" || id == "bold-corporate" || id == "warm-friendly"
  {
    if id == "modern-minimal" { assert PresetDesignSystems[0].id == id; }
    if id == "bold-corporate" { assert PresetDesignSystems[1].id == id; }
    if id == "warm-friendly" { assert PresetDesignSystems[2].id == id; }
  }

  /** The content width is 600 in the defaults and in two presets, 560 in the warm preset. */
  lemma ContentWidths()
    ensures DefaultTokens.global.contentWidth == 600
    ensures ModernMinimal.tokens.global.contentWidth == 600 && BoldCorporate.tokens.global.contentWidth == 600
    ensures WarmFriendly.tokens.global.contentWidth == 560
  {
  }

  /** A new design system: the given name and id, the default tokens, created and updated at `now`. */
  function CreateDesignSystem(name: string, id: string, now: int): (ds: DesignSystem)
    ensures ds.id == id && ds.name == name && ds.tokens == DefaultTokens
    ensures ds.createdAt == ds.updatedAt == now
  {
    DesignSystem(id, name, DefaultTokens, now, now)
  }
}
