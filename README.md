# Email template builder — a Dafny model of its core

The email template builder is an editor. An email document is an ordered list of
typed content blocks: headings, text, images, buttons, a header, columns,
dividers, spacers, social links, a footer, lists and blockquotes. Visual
styling comes from a *design system*, a record of eight token categories. A
block may override individual design-system fields. The editor keeps a linear
undo/redo history of whole-document snapshots and stores finished documents as
named templates.

This project models:

- the document model and the token model, as datatypes
  (`EmailBuilderTypes`, `DesignSystemTypes`, `ContentTree`);
- the preset design systems and default tokens (`DesignSystemPresets`);
- the style resolver, the per-category token merge, and the registry of user
  design systems with its active-system reference (`DesignSystemContext`,
  including `DesignSystemProvider`);
- the block factory (`EmailBuilderUtils`);
- the per-node and per-mark table of the rich-text renderer, and the
  empty-content builder (`TiptapRenderer`);
- the editing session with undo/redo (`EmailBuilder.EmailBuilderSession`);
- the template store (`TemplateStorage.TemplateStore`).

`Scenarios` composes several of these and states the end-to-end outcome of each composition as a postcondition.

Modelling choices:

- **Randomness and time are parameters.** A fresh id from `nanoid` is a
  `newId` argument, and a `Date.now()` reading is a `now` argument.
- **JavaScript truthiness is explicit.** The active design-system id and the
  current template id are `Option<string>`. `Truthy` treats both `None` and
  `""` as absent, as the source's `if (!id)` tests do.
- **Optional fields are `Option`.** Optional overrides and partial updates use
  `Option`; `None` means "absent".
- **How a block update lands.** The session's block update is
  `{ ...block, ...updates }`:
  - a field missing from the update keeps the block's current value;
  - on an optional override field, `Some(None)` clears the override. This is
    how an explicit `undefined` behaves in a spread.
- **The mutable providers are classes.** The React providers and the editor
  component become classes with plain fields. Their operations are methods,
  and each method states the whole new state.
- **Pure code is functions.** The pure parts become functions. A list
  operation is specified element-wise, and the partner lemmas prove the
  round trips and invariants that involve several operations.

## Model

| member | source | states |
|---|---|---|
| EmailBuilderTypes.ParseTag | types/email-builder.ts:3-15 | a block-type tag is read back only as the block type that has exactly that tag |
| EmailBuilderTypes.ParseTagRoundTrip | types/email-builder.ts:3-15 | every block type's tag reads back as that same type, so the twelve tags are pairwise distinct |
| EmailBuilderTypes.AllBlockTypesComplete | types/email-builder.ts:125-137 | there are exactly twelve block types, each listed once, and every block type is among them |
| EmailBuilderTypes.AlignByType | types/email-builder.ts:22-123 | exactly the heading, text, image, button, social-links and footer blocks carry an alignment; list and blockquote blocks do not |
| DesignSystemTypes.CategoriesAreTheEightKeys | types/design-system.ts:78-87 | the token record has exactly eight categories, each present once and each with its own key |
| TiptapRenderer.RenderNode | lib/tiptap-react-email-renderer.tsx:41-178 | the node table maps every known node kind other than doc and text to an element, and maps nothing else |
| TiptapRenderer.RenderMark | lib/tiptap-react-email-renderer.tsx:179-205 | the mark table maps every known mark to an element, and unknown marks to nothing |
| TiptapRenderer.CreateEmptyContent | lib/tiptap-react-email-renderer.tsx:215-232 | the result is a doc with one paragraph holding one text node: the given text, or "Enter your text here..." by default |
| TiptapRenderer.EmptyContentText | lib/tiptap-react-email-renderer.tsx:215-232 | the text read back from the created document is exactly the text it was created with |
| TiptapRenderer.HeadingSizesDecrease | lib/tiptap-react-email-renderer.tsx:60-67 | levels 1 to 6 all have a size between 16 and 32, and a deeper level has a strictly smaller size |
| TiptapRenderer.HeadingLevelDefault | lib/tiptap-react-email-renderer.tsx:58-83 | a heading without a level, or with level 0, renders as level 1 with size 32 |
| TiptapRenderer.HeadingExplicitLevel | lib/tiptap-react-email-renderer.tsx:59-74 | a heading with an explicit non-zero level keeps it; levels 1 to 6 get sizes 32, 28, 24, 20, 18 and 16, and any other level has no size (an undefined `fontSize`) |
| TiptapRenderer.CodeBlockDefaults | lib/tiptap-react-email-renderer.tsx:108-122 | a code block's language defaults to "bash" when it is unset or empty, and its code is the node's text ("" when it has none) |
| TiptapRenderer.ParagraphInherits | lib/tiptap-react-email-renderer.tsx:35-55 | a paragraph takes the caller's text colour and alignment, and font size 16 unless the caller gives one |
| TiptapRenderer.QuoteColour | lib/tiptap-react-email-renderer.tsx:86-104 | a blockquote's text colour is the caller's colour if given, else "#6b7280" |
| TiptapRenderer.ListSpacing | lib/tiptap-react-email-renderer.tsx:150-174 | bullet and ordered lists get left padding 24 and the caller's colour, and a list item gets bottom margin 4 |
| TiptapRenderer.ImageAltDefault | lib/tiptap-react-email-renderer.tsx:125-137 | an image without alt text gets "", and its source and size pass through unchanged |
| TiptapRenderer.MarkMapping | lib/tiptap-react-email-renderer.tsx:179-205 | bold, italic, underline and strike map to strong, em, u and s; a link becomes an anchor with the mark's href; code becomes monospace inline code |
| DesignSystemPresets.PresetsShape | lib/design-system-presets.ts:56-204 | there are exactly three presets, with pairwise distinct ids, all created and updated at time 0 |
| DesignSystemPresets.PresetIds | lib/design-system-presets.ts:58-157 | an id names a preset exactly when it is "modern-minimal", "bold-corporate" or "warm-friendly" |
| DesignSystemPresets.IsPresetId | lib/design-system-context.tsx:163 | an id is a preset id exactly when some built-in preset carries it (the same test guards deletion at line 192); a preset id is never empty |
| DesignSystemPresets.ContentWidths | lib/design-system-presets.ts:8-204 | the content width is 600 in the defaults and in two presets, and 560 in "warm-friendly" |
| DesignSystemPresets.CreateDesignSystem | lib/design-system-presets.ts:209-218 | a new system has the given name and id, the default tokens, and equal creation and update times |
| DesignSystemContext.ResolveStyles | lib/design-system-context.tsx:226-288 | the resolved styles are the block's own overrides laid over its type's token category |
| DesignSystemContext.OverrideWins | lib/design-system-context.tsx:232-281 | whenever a block sets a field, the resolved value is the block's value, whatever the tokens |
| DesignSystemContext.NoOverridesMeansTokens | lib/design-system-context.tsx:232-281 | a block without overrides resolves exactly to its token category |
| DesignSystemContext.TokenOnlyFields | lib/design-system-context.tsx:235-280 | two blocks of one type resolve the fields that have no override (font family, weight, size, line height, border colour) identically |
| DesignSystemContext.FlatBlocksResolveEmpty | lib/design-system-context.tsx:283-284 | a block resolves to the empty style set exactly when it is an image, header, columns, spacer or social-links block |
| DesignSystemContext.ButtonOverrideBeatsPreset | lib/design-system-context.tsx:247-254 | with "bold-corporate" active (button background "#2563eb"), a button whose background override is "#ff0000" resolves to "#ff0000" |
| DesignSystemContext.MergeTokens | lib/design-system-context.tsx:325-343 | the loop over the update's categories computes exactly the per-category shallow merge |
| DesignSystemContext.MergeTouchesOnlyNamedCategories | lib/design-system-context.tsx:331-340 | a category the update does not name is unchanged, and a named category takes each supplied field and keeps the rest |
| DesignSystemContext.MergeNothing | lib/design-system-context.tsx:325-343 | merging the update that names no category changes nothing |
| DesignSystemContext.MergeIdempotent | lib/design-system-context.tsx:325-343 | merging the same update twice equals merging it once |
| DesignSystemContext.FindSystem | lib/design-system-context.tsx:144-147 | the result is the first system with the id, and there is none exactly when no system has it |
| DesignSystemContext.ApplySystemUpdates | lib/design-system-context.tsx:170-181 | the updated system keeps its id and creation time, takes the new name if one is given, merges the tokens if given, and is stamped `now` |
| DesignSystemContext.UpdateSystems | lib/design-system-context.tsx:168-183 | every system with the id is updated and every other system stays as it was, at the same position |
| DesignSystemContext.UpdateSystemsIdempotent | lib/design-system-context.tsx:168-183 | repeating one update at one time stamp changes nothing further |
| DesignSystemContext.RemoveSystems | lib/design-system-context.tsx:197 | no system with the id remains, and each other system keeps its multiplicity |
| DesignSystemContext.RemoveSystemsInOrder | lib/design-system-context.tsx:197 | deletion distributes over concatenation and drops a single system exactly when it has the id, so the survivors keep their order |
| DesignSystemContext.DeletedIdUnavailable | lib/design-system-context.tsx:189-205 | after a user id is deleted, no available system carries it, so a reference to it cannot resolve |
| DesignSystemContext.DesignSystemProvider.constructor | lib/design-system-context.tsx:106-113 | the provider starts with no user systems and no active id |
| DesignSystemContext.DesignSystemProvider.LoadStored | lib/design-system-context.tsx:116-126 | a list that was read and parsed is adopted; otherwise the state is unchanged |
| DesignSystemContext.DesignSystemProvider.DesignSystems | lib/design-system-context.tsx:138-141 | the available systems are the three presets followed by the user systems |
| DesignSystemContext.DesignSystemProvider.ActiveDesignSystem | lib/design-system-context.tsx:144-147 | with no id, or an empty one, nothing is active; otherwise the active system is the first available system with that id |
| DesignSystemContext.DesignSystemProvider.ActiveTokens | lib/design-system-context.tsx:228 | resolution uses the active system's tokens, or the default tokens when nothing is active |
| DesignSystemContext.DesignSystemProvider.ResolveBlockStyles | lib/design-system-context.tsx:226-288 | a block is resolved against the active tokens, or against the defaults |
| DesignSystemContext.DesignSystemProvider.SetActiveDesignSystemId | lib/design-system-context.tsx:111-113 | only the active id changes |
| DesignSystemContext.DesignSystemProvider.CreateUserDesignSystem | lib/design-system-context.tsx:150-154 | a default-token system is appended under the new id and returned; the active id stays |
| DesignSystemContext.DesignSystemProvider.UpdateDesignSystem | lib/design-system-context.tsx:157-186 | a preset id changes nothing; otherwise the user systems become the element-wise update |
| DesignSystemContext.DesignSystemProvider.DeleteDesignSystem | lib/design-system-context.tsx:189-205 | a preset id changes nothing; otherwise the id's systems are removed, the active id is cleared if it was this id, and the active tokens are then the defaults |
| DesignSystemContext.DesignSystemProvider.DuplicateDesignSystem | lib/design-system-context.tsx:208-223 | an unknown id gives None and changes nothing; otherwise one copy is appended, named "<name> (Copy)", with the source's tokens and stamped `now` |
| EmailBuilderUtils.CreateBlock | lib/email-builder-utils.ts:22-184 | the new block has the requested type and the given id, and no design-system-driven field is set |
| EmailBuilderUtils.NewHeading | lib/email-builder-utils.ts:26-34 | a new heading is level 1 and centred, and its only text is "Your Heading Here" |
| EmailBuilderUtils.NewColumns | lib/email-builder-utils.ts:77-84 | a new columns block has 2 columns, gap 16, and one empty cell per column |
| EmailBuilderUtils.NewGeometry | lib/email-builder-utils.ts:47-111 | a new image has an empty source and is 600 by 300; a spacer has height 32; social links have icon size 24 and the links twitter, facebook, instagram, in that order |
| EmailBuilderUtils.NewList | lib/email-builder-utils.ts:124-158 | a new list is a bullet list, doc → bulletList → two listItems, the first reading "List item 1" and the second "List item 2" |
| EmailBuilderUtils.NewButtonAndHeader | lib/email-builder-utils.ts:58-75 | a new button reads "Click Here" and links to "#"; a new header shows "Your Brand" with the badge and an empty logo source |
| EmailBuilder.ApplyBlockUpdates | components/email-builder/email-builder.tsx:64-66 | an update never changes a block's id or type |
| EmailBuilder.ApplyBlockUpdatesFields | components/email-builder/email-builder.tsx:64-66 | every field of the block's variant takes the update's value when one is supplied and keeps the block's value otherwise, which with id and type kept fixes the result; `Some(None)` clears an override |
| EmailBuilder.ApplyBlockUpdatesLaws | components/email-builder/email-builder.tsx:64-66 | the empty update changes nothing, and applying an update twice equals applying it once |
| EmailBuilder.IndexOf | components/email-builder/email-builder.tsx:105 | the result is the position of the first block with the id, or -1 exactly when no block has it |
| EmailBuilder.FindBlock | components/email-builder/email-builder.tsx:32-33 | the result is the first block with the id, and there is none exactly when no block has it |
| EmailBuilder.UpdateBlocks | components/email-builder/email-builder.tsx:64-66 | every block with the id gets the update and every other block stays as it was, at the same position |
| EmailBuilder.RemoveBlocks | components/email-builder/email-builder.tsx:92 | no block with the id remains, each other block keeps its multiplicity, and an absent id leaves the list as it was |
| EmailBuilder.RemoveBlocksInOrder | components/email-builder/email-builder.tsx:92 | removal distributes over concatenation and drops a single block exactly when it has the id, so the survivors keep their order |
| EmailBuilder.Swap | components/email-builder/email-builder.tsx:110-115 | the two positions exchange their blocks, every other position is kept, and the result is a permutation |
| EmailBuilder.MoveBlocks | components/email-builder/email-builder.tsx:103-122 | nothing moves exactly when the id is absent, or is first and moving up, or is last and moving down; otherwise the block swaps with its neighbour, giving a permutation |
| EmailBuilder.MoveUpThenDown | components/email-builder/email-builder.tsx:103-122 | moving a block up and then down restores the list |
| EmailBuilder.MoveBoundaries | components/email-builder/email-builder.tsx:106-108 | with distinct ids, moving the first block up or the last block down is a no-op |
| EmailBuilder.MoveSecondUp | components/email-builder/email-builder.tsx:111-115 | moving the second of two blocks up exchanges them |
| EmailBuilder.AddKeepsIdsUnique | components/email-builder/email-builder.tsx:46-58 | appending a block under a fresh id keeps the block ids distinct |
| EmailBuilder.UpdateKeepsIdsUnique | components/email-builder/email-builder.tsx:60-86 | updating blocks keeps the block ids distinct |
| EmailBuilder.RemoveKeepsIdsUnique | components/email-builder/email-builder.tsx:88-101 | deleting blocks keeps the block ids distinct |
| EmailBuilder.MoveKeepsIdsUnique | components/email-builder/email-builder.tsx:103-122 | moving a block keeps the block ids distinct |
| EmailBuilder.EmailBuilderSession.constructor | components/email-builder/email-builder.tsx:15-30 | the session starts on "Untitled Email" with no blocks, background "#f3f4f6" and width 600; the history is that one document, the cursor is 0, and nothing is selected |
| EmailBuilder.EmailBuilderSession.SelectedBlock | components/email-builder/email-builder.tsx:32-33 | the selected block is the first block with the selected id, and there is none when nothing is selected or no block has that id |
| EmailBuilder.EmailBuilderSession.CanUndo | components/email-builder/email-builder.tsx:157 | undo is possible exactly when the cursor is above 0, and the snapshot it restores then exists |
| EmailBuilder.EmailBuilderSession.CanRedo | components/email-builder/email-builder.tsx:158 | redo is possible exactly when a later snapshot exists |
| EmailBuilder.EmailBuilderSession.PushHistory | components/email-builder/email-builder.tsx:35-44 | the history keeps the snapshots up to the cursor and appends the new one; the cursor moves onto it, so redo is impossible; the session invariant holds |
| EmailBuilder.EmailBuilderSession.AddBlock | components/email-builder/email-builder.tsx:46-58 | the new block is appended after the unchanged earlier blocks, one snapshot is pushed, and the new id is selected |
| EmailBuilder.EmailBuilderSession.UpdateBlock | components/email-builder/email-builder.tsx:60-72 | the blocks with the id are updated and the history and cursor are untouched |
| EmailBuilder.EmailBuilderSession.UpdateBlockWithHistory | components/email-builder/email-builder.tsx:74-86 | the blocks with the id are updated and one snapshot is pushed |
| EmailBuilder.EmailBuilderSession.DeleteBlock | components/email-builder/email-builder.tsx:88-101 | the blocks with the id are removed, a snapshot is pushed even when the id is absent, and a matching selection is cleared |
| EmailBuilder.EmailBuilderSession.MoveBlock | components/email-builder/email-builder.tsx:103-122 | when nothing can move, document, history and cursor are unchanged; otherwise the swapped list becomes the document and one snapshot is pushed |
| EmailBuilder.EmailBuilderSession.Undo | components/email-builder/email-builder.tsx:124-129 | when the cursor is above 0, it steps back and the document becomes that snapshot; otherwise nothing changes |
| EmailBuilder.EmailBuilderSession.Redo | components/email-builder/email-builder.tsx:131-136 | when a later snapshot exists, the cursor steps forward and the document becomes that snapshot; otherwise nothing changes |
| EmailBuilder.EmailBuilderSession.NameChange | components/email-builder/email-builder.tsx:138-144 | only the document's name changes, and no snapshot is pushed |
| EmailBuilder.EmailBuilderSession.SelectBlock | components/email-builder/email-builder.tsx:26 | only the selection changes |
| EmailBuilder.UndoThenAddDiscardsFuture | components/email-builder/email-builder.tsx:35-58 | after add, add, undo, add: redo is impossible and does nothing, the cursor is on the last of three snapshots, and the second add is gone |
| TemplateStorage.FindTemplate | lib/template-storage-context.tsx:149 | the result is the first template with the id, and there is none exactly when no template has it |
| TemplateStorage.SaveInto | lib/template-storage-context.tsx:120-126 | every template with the id takes the document's name, the document and the new update time; the others are kept; the length is unchanged |
| TemplateStorage.RemoveTemplates | lib/template-storage-context.tsx:162 | no template with the id remains, and each other template keeps its multiplicity |
| TemplateStorage.RemoveTemplatesInOrder | lib/template-storage-context.tsx:162 | deletion distributes over concatenation and drops a single template exactly when it has the id, so the survivors keep their order |
| TemplateStorage.SaveThenFind | lib/template-storage-context.tsx:119-128 | after an in-place save, looking the id up gives the saved template, with its id and creation time unchanged |
| TemplateStorage.AppendThenFind | lib/template-storage-context.tsx:131-141 | a new template appended under a fresh id is found with the document it was saved with |
| TemplateStorage.DeleteThenFind | lib/template-storage-context.tsx:160-168 | after a deletion the id is no longer found |
| TemplateStorage.MostRecentIndex | lib/template-storage-context.tsx:92-97 | the chosen template has the largest update time, and every later template has a strictly smaller one, so ties go to the later template |
| TemplateStorage.TemplateStore.constructor | lib/template-storage-context.tsx:79-82 | the store starts with no templates and no current id |
| TemplateStorage.TemplateStore.Mount | lib/template-storage-context.tsx:85-102 | a stored list is adopted, and when it is non-empty its most recently updated template becomes current |
| TemplateStorage.TemplateStore.SaveTemplate | lib/template-storage-context.tsx:114-144 | with a current id, that template is resaved in place and the id is returned; otherwise one template is appended under the new id with equal creation and update times, becomes current, and its id is returned |
| TemplateStorage.TemplateStore.LoadTemplate | lib/template-storage-context.tsx:147-157 | a found id becomes current and its document is returned; an unknown id gives None and changes nothing |
| TemplateStorage.TemplateStore.DeleteTemplate | lib/template-storage-context.tsx:160-168 | the templates with the id are removed, and a matching current id is cleared |
| TemplateStorage.TemplateStore.CreateNewTemplate | lib/template-storage-context.tsx:171-173 | the current id becomes None and the templates are unchanged |
| TemplateStorage.TemplateStore.SetCurrentTemplateId | lib/template-storage-context.tsx:80-82 | only the current id changes |
| TemplateStorage.SaveLoadRoundTrip | lib/template-storage-context.tsx:114-157 | saving a new document and then a second one under the same current id leaves one new template, and loading it returns the second document |
| Scenarios.NewHeadingWithDefaults | components/email-builder/email-builder.tsx:46-58 | a blank session gets one heading; with no active system it resolves to colour "#000000", level 1 and the text "Your Heading Here" |
| Scenarios.ButtonOverrideUnderBoldCorporate | lib/design-system-context.tsx:247-254 | a button with background override "#ff0000" keeps it under "bold-corporate", whose own button background is "#2563eb" |
| Scenarios.MoveAtBoundaries | components/email-builder/email-builder.tsx:103-122 | with two blocks, moving the first up or the last down records nothing; moving the second up swaps them and pushes one snapshot |
| Scenarios.DeleteActiveFallsBack | lib/design-system-context.tsx:189-205 | a user system with its own heading colour drives resolution while active; once it is deleted, resolution falls back to the default colour |

## Left out

- HTML and template-code export (`renderEmailToHtml`, `generateEmailTemplateCode`). They live in lib/email-renderer, which is not part of this model. So the columns scenario, "two side-by-side cells, the second empty but present", is stated only for the block data: see `EmailBuilderUtils.NewColumns`.
- The tree walk of the static rich-text renderer, and the editor extensions. Child traversal, the nesting order of marks and the fallback for unknown kinds belong to the rendering library. Only the per-node and per-mark element table is modelled; unknown kinds map to `None`.
- Style values only. Every descriptor the renderer produces is modelled as plain data: the colours, sizes, margins and fonts. No React element is built.
- Reading and writing `localStorage`, and JSON parsing, are I/O. Their errors are swallowed. A stored list arrives as an `Option` parameter, which is `None` when nothing was stored or it did not parse. The write-back on every change is not modelled.
- The deep copy of tokens in `duplicateDesignSystem` (a JSON round trip) becomes plain value sharing. Datatypes are immutable values, so the two cannot be told apart.
- React context, hooks, `useMemo`, and state updates that are batched and applied asynchronously. Each operation runs to completion on the current state, one at a time.
  - `loadTemplate` reads the template list of its last render; the model reads the current one.
  - The mount effect's first write-back of the empty list is not modelled.
- The editor's view mode (desktop or mobile) and its light/dark simulation flag. They are UI state that no modelled operation reads.
- The interactive editor, sidebar, canvas and header files, and the application shell.
- The generated sample template file, which is output, not logic.
- `lineHeight` is a `real` constant and no arithmetic is done on it. Font sizes, widths and times are unbounded integers; the source does no arithmetic on them that could overflow.
- `createBlock`'s default branch throws for an unknown type. The block-type enumeration is closed here, so that branch cannot be reached. Unknown tag strings are handled by `EmailBuilderTypes.ParseTag`, which returns `None`.
- The footer's default text is kept exactly as the source file spells it, including the two characters "Â©", which are probably a mis-encoded "©".
- DesignSystemContext.DesignSystemProvider.UpdateDesignSystem and DeleteDesignSystem: the `console.warn` each logs when asked to change or delete a preset is not modelled, since it is logging; the refusal itself (nothing changes) is.
- `duplicateDesignSystem` reads the clock twice (once inside `createDesignSystem`, once directly). Both readings are one `now` here.
- DesignSystemContext.MergeTokens: a partial category whose field is explicitly `undefined` would, in the source's object spread, blank that field out. The model's `None` keeps the existing value instead, which is what the partial-token type is evidently meant to allow.
- EmailBuilder.ApplyBlockUpdates: an update cannot change a block's `id` or `type`, although `Partial<EmailBlock>` would allow it in the source. The components that build updates are not part of this model, so whether any caller does so is not known here. A columns block's nested blocks are called `cells` here, where the source calls them `content`.
- JavaScript's handling of updates whose fields belong to another block variant: they are ignored here. The source would copy the foreign property onto the object. No file in this model reads it, but it would still be stored with the document.
