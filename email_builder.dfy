/**
 * The editing session: the live document, the selected block, and a linear
 * undo/redo history of whole-document snapshots with a cursor.
 */
module EmailBuilder {
  import opened Wrappers
  import opened ArrayOps
  import ContentTree
  import opened DesignSystemTypes
  import opened EmailBuilderTypes
  import opened EmailBuilderUtils

  // ---------------------------------------------------------------------
  // Partial block updates (`{ ...block, ...updates }`)

  /**
   * The fields of a partial block update. None leaves a field as it is; for
   * the optional override fields, Some(None) clears the override.
   */
  datatype BlockUpdates = BlockUpdates(
    content: Option<ContentTree.Node>,
    level: Option<HeadingLevel>,
    align: Option<Align>,
    color: Option<Option<string>>,
    src: Option<string>,
    alt: Option<string>,
    width: Option<int>,
    height: Option<int>,
    text: Option<string>,
    url: Option<string>,
    backgroundColor: Option<Option<string>>,
    textColor: Option<Option<string>>,
    borderRadius: Option<Option<int>>,
    logoSrc: Option<string>,
    brandName: Option<string>,
    showBadge: Option<bool>,
    columns: Option<ColumnCount>,
    gap: Option<int>,
    cells: Option<seq<seq<EmailBlock>>>,
    thickness: Option<Option<int>>,
    style: Option<Option<BorderStyle>>,
    links: Option<seq<SocialLink>>,
    iconSize: Option<int>,
    listType: Option<ListType>)

  const NoUpdates := BlockUpdates(None, None, None, None, None, None, None, None, None, None, None, None,
                                  None, None, None, None, None, None, None, None, None, None, None, None)

  /** The block with the update's fields spread over its own; fields the variant does not have are ignored. */
  function ApplyBlockUpdates(b: EmailBlock, u: BlockUpdates): (r: EmailBlock)
    ensures r.id == b.id && r.Type() == b.Type()
  {
    match b
    case HeadingBlock(id, content, level, align, color) =>
      HeadingBlock(id, u.content.GetOr(content), u.level.GetOr(level), u.align.GetOr(align), u.color.GetOr(color))
    case TextBlock(id, content, align, color) =>
      TextBlock(id, u.content.GetOr(content), u.align.GetOr(align), u.color.GetOr(color))
    case ImageBlock(id, src, alt, width, height, align) =>
      ImageBlock(id, u.src.GetOr(src), u.alt.GetOr(alt), u.width.GetOr(width), u.height.GetOr(height), u.align.GetOr(align))
    case ButtonBlock(id, text, url, bg, fg, radius, align) =>
      ButtonBlock(id, u.text.GetOr(text), u.url.GetOr(url), u.backgroundColor.GetOr(bg), u.textColor.GetOr(fg),
                  u.borderRadius.GetOr(radius), u.align.GetOr(align))
    case HeaderBlock(id, logoSrc, brandName, showBadge) =>
      HeaderBlock(id, u.logoSrc.GetOr(logoSrc), u.brandName.GetOr(brandName), u.showBadge.GetOr(showBadge))
    case ColumnsBlock(id, columns, gap, cells) =>
      ColumnsBlock(id, u.columns.GetOr(columns), u.gap.GetOr(gap), u.cells.GetOr(cells))
    case DividerBlock(id, color, thickness, style) =>
      DividerBlock(id, u.color.GetOr(color), u.thickness.GetOr(thickness), u.style.GetOr(style))
    case SpacerBlock(id, height) =>
      SpacerBlock(id, u.height.GetOr(height))
    case SocialLinksBlock(id, links, iconSize, align) =>
      SocialLinksBlock(id, u.links.GetOr(links), u.iconSize.GetOr(iconSize), u.align.GetOr(align))
    case FooterBlock(id, content, align, color) =>
      FooterBlock(id, u.content.GetOr(content), u.align.GetOr(align), u.color.GetOr(color))
    case ListBlock(id, content, listType, color) =>
      ListBlock(id, u.content.GetOr(content), u.listType.GetOr(listType), u.color.GetOr(color))
    case BlockquoteBlock(id, content, color) =>
      BlockquoteBlock(id, u.content.GetOr(content), u.color.GetOr(color))
  }

  /** The empty update changes nothing, and applying an update twice is applying it once. */
  lemma ApplyBlockUpdatesLaws(b: EmailBlock, u: BlockUpdates)
    ensures ApplyBlockUpdates(b, NoUpdates) == b
    ensures ApplyBlockUpdates(ApplyBlockUpdates(b, u), u) == ApplyBlockUpdates(b, u)
  {
  }

  /**
   * Every field of the block's variant takes the update's value when the
   * update supplies one and keeps the block's value otherwise; with id and
   * type kept, this fixes the result completely. Supplying `Some(None)` for
   * an override clears it.
   */
  lemma ApplyBlockUpdatesFields(b: EmailBlock, u: BlockUpdates)
    ensures var r := ApplyBlockUpdates(b, u);
      (b.HeadingBlock? || b.TextBlock? || b.FooterBlock? || b.ListBlock? || b.BlockquoteBlock?) ==>
        TakesOrKeeps(u.content, b.content, r.content)
    ensures var r := ApplyBlockUpdates(b, u);
      b.HasAlign() ==> TakesOrKeeps(u.align, b.align, r.align)
    ensures var r := ApplyBlockUpdates(b, u);
      (b.HeadingBlock? || b.TextBlock? || b.DividerBlock? || b.FooterBlock? || b.ListBlock? || b.BlockquoteBlock?) ==>
        && TakesOrKeeps(u.color, b.color, r.color)
        && (u.color == Some(None) ==> r.color.None?)
    ensures var r := ApplyBlockUpdates(b, u);
      b.HeadingBlock? ==> TakesOrKeeps(u.level, b.level, r.level)
    ensures var r := ApplyBlockUpdates(b, u);
      b.ImageBlock? ==>
        && TakesOrKeeps(u.src, b.src, r.src) && TakesOrKeeps(u.alt, b.alt, r.alt)
        && TakesOrKeeps(u.width, b.width, r.width) && TakesOrKeeps(u.height, b.height, r.height)
    ensures var r := ApplyBlockUpdates(b, u);
      b.ButtonBlock? ==>
        && TakesOrKeeps(u.text, b.text, r.text) && TakesOrKeeps(u.url, b.url, r.url)
        && TakesOrKeeps(u.backgroundColor, b.backgroundColor, r.backgroundColor)
        && TakesOrKeeps(u.textColor, b.textColor, r.textColor)
        && TakesOrKeeps(u.borderRadius, b.borderRadius, r.borderRadius)
        && (u.backgroundColor == Some(None) ==> r.backgroundColor.None?)
        && (u.textColor == Some(None) ==> r.textColor.None?)
        && (u.borderRadius == Some(None) ==> r.borderRadius.None?)
    ensures var r := ApplyBlockUpdates(b, u);
      b.HeaderBlock? ==>
        && TakesOrKeeps(u.logoSrc, b.logoSrc, r.logoSrc) && TakesOrKeeps(u.brandName, b.brandName, r.brandName)
        && TakesOrKeeps(u.showBadge, b.showBadge, r.showBadge)
    ensures var r := ApplyBlockUpdates(b, u);
      b.ColumnsBlock? ==>
        && TakesOrKeeps(u.columns, b.columns, r.columns) && TakesOrKeeps(u.gap, b.gap, r.gap)
        && TakesOrKeeps(u.cells, b.cells, r.cells)
    ensures var r := ApplyBlockUpdates(b, u);
      b.DividerBlock? ==>
        && TakesOrKeeps(u.thickness, b.thickness, r.thickness) && TakesOrKeeps(u.style, b.style, r.style)
        && (u.thickness == Some(None) ==> r.thickness.None?)
        && (u.style == Some(None) ==> r.style.None?)
    ensures var r := ApplyBlockUpdates(b, u);
      b.SpacerBlock? ==> TakesOrKeeps(u.height, b.height, r.height)
    ensures var r := ApplyBlockUpdates(b, u);
      b.SocialLinksBlock? ==> TakesOrKeeps(u.links, b.links, r.links) && TakesOrKeeps(u.iconSize, b.iconSize, r.iconSize)
    ensures var r := ApplyBlockUpdates(b, u);
      b.ListBlock? ==> TakesOrKeeps(u.listType, b.listType, r.listType)
  {
  }

  // ---------------------------------------------------------------------
  // Operations on the block list

  /** The position of the first block with `id`, or -1 (`findIndex`). */
  function IndexOf(blocks: seq<EmailBlock>, id: string): (k: int)
    ensures -1 <= k < |blocks|
    ensures k == -1 <==> forall i :: 0 <= i < |blocks| ==> blocks[i].id != id
    ensures 0 <= k ==> blocks[k].id == id && forall i :: 0 <= i < k ==> blocks[i].id != id
  {
    FindIndex(blocks, (b: EmailBlock) => b.id == id)
  }

  /** The first block with `id`, if any (`find`). */
  function FindBlock(blocks: seq<EmailBlock>, id: string): (r: Option<EmailBlock>)
    ensures r.None? <==> forall i :: 0 <= i < |blocks| ==> blocks[i].id != id
    ensures r.Some? ==> r.value in blocks && r.value.id == id
    ensures r.Some? ==>
      exists k :: 0 <= k < |blocks| && blocks[k] == r.value && (forall i :: 0 <= i < k ==> blocks[i].id != id)
  {
    var k := IndexOf(blocks, id);
    if k == -1 then None else Some(blocks[k])
  }

  /** Every block with `id` gets the update; every other block is kept as it is. */
  function UpdateBlocks(blocks: seq<EmailBlock>, id: string, u: BlockUpdates): (r: seq<EmailBlock>)
    ensures |r| == |blocks|
    ensures forall i :: 0 <= i < |blocks| ==> r[i] == if blocks[i].id == id then ApplyBlockUpdates(blocks[i], u) else blocks[i]
  {
    MapWhere(blocks, (b: EmailBlock) => b.id == id, (b: EmailBlock) => ApplyBlockUpdates(b, u))
  }

  /** Every block with `id` is removed; the others keep their multiplicity and order. */
  function RemoveBlocks(blocks: seq<EmailBlock>, id: string): (r: seq<EmailBlock>)
    ensures forall b: EmailBlock :: b in r ==> b.id != id
    ensures forall b: EmailBlock :: b.id != id ==> multiset(r)[b] == multiset(blocks)[b]
    ensures (forall i :: 0 <= i < |blocks| ==> blocks[i].id != id) ==> r == blocks
  {
    var r := Filter(blocks, (b: EmailBlock) => b.id != id);
    if forall i :: 0 <= i < |blocks| ==> blocks[i].id != id then
      FilterKeepsAll(blocks, (b: EmailBlock) => b.id != id);
      r
    else r
  }

  /**
   * Removal keeps the survivors in their order: it works element by element
   * and distributes over concatenation.
   */
  lemma RemoveBlocksInOrder(s: seq<EmailBlock>, t: seq<EmailBlock>, x: EmailBlock, id: string)
    ensures RemoveBlocks(s + t, id) == RemoveBlocks(s, id) + RemoveBlocks(t, id)
    ensures RemoveBlocks([x], id) == if x.id == id then [] else [x]
  {
    FilterAppend(s, t, (b: EmailBlock) => b.id != id);
  }

  datatype Direction = Up | Down

  /** The sequence with the elements at `i` and `j` exchanged. */
  function Swap(s: seq<EmailBlock>, i: nat, j: nat): (r: seq<EmailBlock>)
    requires i < |s| && j < |s|
    ensures |r| == |s| && r[i] == s[j] && r[j] == s[i]
    ensures forall k :: 0 <= k < |s| && k != i && k != j ==> r[k] == s[k]
    ensures multiset(r) == multiset(s)
  {
    s[i := s[j]][j := s[i]]
  }

  /**
   * The block list after moving the first block with `id` one place in
   * `dir`, or None when nothing moves: the id is absent, or the block is
   * already first (up) or last (down).
   */
  function MoveBlocks(blocks: seq<EmailBlock>, id: string, dir: Direction): (r: Option<seq<EmailBlock>>)
    ensures var k := IndexOf(blocks, id);
      r.None? <==> k == -1 || (dir == Up && k == 0) || (dir == Down && k == |blocks| - 1)
    ensures r.Some? ==>
      var k := IndexOf(blocks, id);
      var target := if dir == Up then k - 1 else k + 1;
      && 0 <= target < |blocks|
      && r.value == Swap(blocks, k, target)
      && multiset(r.value) == multiset(blocks)
  {
    var k := IndexOf(blocks, id);
    if k == -1 then None
    else if dir == Up && k == 0 then None
    else if dir == Down && k == |blocks| - 1 then None
    else
      var target := if dir == Up then k - 1 else k + 1;
      assert dir.Down? ==> k + 1 < |blocks|;
      Some(Swap(blocks, k, target))
  }

  /** Moving a block up and then down again restores the list. */
  lemma MoveUpThenDown(blocks: seq<EmailBlock>, id: string)
    requires MoveBlocks(blocks, id, Up).Some?
    ensures MoveBlocks(MoveBlocks(blocks, id, Up).value, id, Down) == Some(blocks)
  {
    var k := IndexOf(blocks, id);
    assert 0 < k < |blocks|;
    var moved := Swap(blocks, k, k - 1);
    assert MoveBlocks(blocks, id, Up).value == moved;
    assert moved[k - 1] == blocks[k];
    forall i | 0 <= i < k - 1 ensures moved[i].id != id {
      assert moved[i] == blocks[i];
    }
    assert IndexOf(moved, id) == k - 1;
    var back := Swap(moved, k - 1, k);
    assert MoveBlocks(moved, id, Down) == Some(back);
    forall i | 0 <= i < |blocks| ensures back[i] == blocks[i] {
    }
    assert back == blocks;
  }

  /** With distinct ids, moving the first block up or the last block down changes nothing. */
  lemma MoveBoundaries(blocks: seq<EmailBlock>)
    requires |blocks| > 0 && UniqueIds(blocks)
    ensures MoveBlocks(blocks, blocks[0].id, Up).None?
    ensures MoveBlocks(blocks, blocks[|blocks| - 1].id, Down).None?
  {
    var last := |blocks| - 1;
    assert IndexOf(blocks, blocks[0].id) == 0;
    assert IndexOf(blocks, blocks[last].id) == last;
  }

  /** Moving the second of two blocks up exchanges them. */
  lemma MoveSecondUp(x: EmailBlock, y: EmailBlock)
    requires x.id != y.id
    ensures MoveBlocks([x, y], y.id, Up) == Some([y, x])
  {
    assert IndexOf([x, y], y.id) == 1;
    var r := MoveBlocks([x, y], y.id, Up).value;
    assert r == Swap([x, y], 1, 0);
    assert r == [y, x];
  }

  /** Block ids are pairwise distinct. */
  predicate UniqueIds(blocks: seq<EmailBlock>) {
    forall i, j :: 0 <= i < j < |blocks| ==> blocks[i].id != blocks[j].id
  }

  /** Appending a block with a fresh id keeps the ids distinct. */
  lemma AddKeepsIdsUnique(blocks: seq<EmailBlock>, t: BlockType, newId: string)
    requires UniqueIds(blocks) && forall i :: 0 <= i < |blocks| ==> blocks[i].id != newId
    ensures UniqueIds(blocks + [CreateBlock(t, newId)])
  {
  }

  /** Updating blocks keeps the ids distinct. */
  lemma UpdateKeepsIdsUnique(blocks: seq<EmailBlock>, id: string, u: BlockUpdates)
    requires UniqueIds(blocks)
    ensures UniqueIds(UpdateBlocks(blocks, id, u))
  {
    var r := UpdateBlocks(blocks, id, u);
    forall i, j | 0 <= i < j < |r| ensures r[i].id != r[j].id {
      assert r[i].id == blocks[i].id && r[j].id == blocks[j].id;
    }
  }

  /** Removing blocks keeps the ids distinct. */
  lemma RemoveKeepsIdsUnique(blocks: seq<EmailBlock>, id: string)
    requires UniqueIds(blocks)
    ensures UniqueIds(RemoveBlocks(blocks, id))
  {
    FilterSubsequence(blocks, (b: EmailBlock) => b.id != id);
  }

  /** Moving a block keeps the ids distinct. */
  lemma MoveKeepsIdsUnique(blocks: seq<EmailBlock>, id: string, dir: Direction)
    requires UniqueIds(blocks)
    requires MoveBlocks(blocks, id, dir).Some?
    ensures UniqueIds(MoveBlocks(blocks, id, dir).value)
  {
    var k := IndexOf(blocks, id);
    var target := if dir == Up then k - 1 else k + 1;
    var m := MoveBlocks(blocks, id, dir).value;
    forall i, j | 0 <= i < j < |m| ensures m[i].id != m[j].id {
      var i' := if i == k then target else if i == target then k else i;
      var j' := if j == k then target else if j == target then k else j;
      assert m[i] == blocks[i'] && m[j] == blocks[j'];
    }
  }

  /** `filter` keeps a block list's ids distinct. */
  lemma {:induction false} FilterSubsequence(blocks: seq<EmailBlock>, p: EmailBlock -> bool)
    requires UniqueIds(blocks)
    ensures UniqueIds(Filter(blocks, p))
  {
    if |blocks| > 0 {
      FilterSubsequence(blocks[1..], p);
      var rest := Filter(blocks[1..], p);
      forall b | b in rest ensures b.id != blocks[0].id {
        assert b in blocks[1..];
      }
    }
  }

  // ---------------------------------------------------------------------
  // The session

  const InitialDocument := EmailDocument("Untitled Email", [], None, DocumentSettings("#f3f4f6", 600, None))

  class EmailBuilderSession {
    var document: EmailDocument
    var selectedBlockId: Option<string>
    var history: seq<EmailDocument>
    var historyIndex: nat

    /** The cursor points into the history, and the first snapshot is the initial document. */
    ghost predicate Valid()
      reads this
    {
      historyIndex < |history| && history[0] == InitialDocument
    }

    constructor ()
      ensures Valid()
      ensures document == InitialDocument && selectedBlockId == None
      ensures history == [InitialDocument] && historyIndex == 0
    {
      document := InitialDocument;
      selectedBlockId := None;
      history := [InitialDocument];
      historyIndex := 0;
    }

    /** The selected block, or None when nothing is selected or the selected id is gone. */
    function SelectedBlock(): (r: Option<EmailBlock>)
      reads this
      ensures selectedBlockId.None? ==> r.None?
      ensures selectedBlockId.Some? ==> r == FindBlock(document.blocks, selectedBlockId.value)
    {
      if selectedBlockId.None? then None else FindBlock(document.blocks, selectedBlockId.value)
    }

    /** Undo is offered exactly when the cursor is above 0; the snapshot it would restore then exists. */
    function CanUndo(): (r: bool)
      reads this
      ensures r <==> historyIndex >= 1
      ensures r && Valid() ==> historyIndex - 1 < |history|
    {
      historyIndex > 0
    }

    /** Redo is offered exactly when a later snapshot exists. */
    function CanRedo(): (r: bool)
      reads this
      ensures r <==> historyIndex < |history| - 1
    {
      historyIndex + 1 < |history|
    }

    /** Drops the snapshots after the cursor, appends `newDoc` and moves the cursor onto it. */
    method PushHistory(newDoc: EmailDocument)
      requires Valid()
      modifies this
      ensures Valid()
      ensures history == old(history[..historyIndex + 1]) + [newDoc]
      ensures historyIndex == old(historyIndex) + 1 && historyIndex == |history| - 1
      ensures !CanRedo()
      ensures document == old(document) && selectedBlockId == old(selectedBlockId)
    {
      history := history[..historyIndex + 1] + [newDoc];
      historyIndex := historyIndex + 1;
    }

    /** Appends a new block of type `t` with id `newId`, records the snapshot and selects the block. */
    method AddBlock(t: BlockType, newId: string)
      requires Valid()
      modifies this
      ensures Valid()
      ensures document == old(document).(blocks := old(document.blocks) + [CreateBlock(t, newId)])
      ensures history == old(history[..historyIndex + 1]) + [document]
      ensures historyIndex == old(historyIndex) + 1
      ensures selectedBlockId == Some(newId)
    {
      var newBlock := CreateBlock(t, newId);
      var newDoc := document.(blocks := document.blocks + [newBlock]);
      document := newDoc;
      PushHistory(newDoc);
      selectedBlockId := Some(newBlock.id);
    }

    /** Live edit: updates the blocks with `id` and records no snapshot. */
    method UpdateBlock(id: string, updates: BlockUpdates)
      requires Valid()
      modifies this
      ensures Valid()
      ensures document == old(document).(blocks := UpdateBlocks(old(document.blocks), id, updates))
      ensures history == old(history) && historyIndex == old(historyIndex)
      ensures selectedBlockId == old(selectedBlockId)
    {
      document := document.(blocks := UpdateBlocks(document.blocks, id, updates));
    }

    /** Committed edit: updates the blocks with `id` and records one snapshot. */
    method UpdateBlockWithHistory(id: string, updates: BlockUpdates)
      requires Valid()
      modifies this
      ensures Valid()
      ensures document == old(document).(blocks := UpdateBlocks(old(document.blocks), id, updates))
      ensures history == old(history[..historyIndex + 1]) + [document]
      ensures historyIndex == old(historyIndex) + 1
      ensures selectedBlockId == old(selectedBlockId)
    {
      var newDoc := document.(blocks := UpdateBlocks(document.blocks, id, updates));
      document := newDoc;
      PushHistory(newDoc);
    }

    /** Removes the blocks with `id`, records a snapshot even if none matched, and clears a matching selection. */
    method DeleteBlock(id: string)
      requires Valid()
      modifies this
      ensures Valid()
      ensures document == old(document).(blocks := RemoveBlocks(old(document.blocks), id))
      ensures history == old(history[..historyIndex + 1]) + [document]
      ensures historyIndex == old(historyIndex) + 1
      ensures selectedBlockId == if old(selectedBlockId) == Some(id) then None else old(selectedBlockId)
    {
      var newDoc := document.(blocks := RemoveBlocks(document.blocks, id));
      document := newDoc;
      PushHistory(newDoc);
      if selectedBlockId == Some(id) {
        selectedBlockId := None;
      }
    }

    /** Swaps the block with its neighbour and records a snapshot; at a boundary or for an unknown id nothing happens. */
    method MoveBlock(id: string, dir: Direction)
      requires Valid()
      modifies this
      ensures Valid()
      ensures MoveBlocks(old(document.blocks), id, dir).None? ==>
        document == old(document) && history == old(history) && historyIndex == old(historyIndex)
      ensures MoveBlocks(old(document.blocks), id, dir).Some? ==>
        && document == old(document).(blocks := MoveBlocks(old(document.blocks), id, dir).value)
        && history == old(history[..historyIndex + 1]) + [document]
        && historyIndex == old(historyIndex) + 1
      ensures selectedBlockId == old(selectedBlockId)
    {
      var moved := MoveBlocks(document.blocks, id, dir);
      if moved.None? {
        return;
      }
      var newDoc := document.(blocks := moved.value);
      document := newDoc;
      PushHistory(newDoc);
    }

    /** Steps the cursor back and restores that snapshot; a no-op at the first snapshot. */
    method Undo()
      requires Valid()
      modifies this
      ensures Valid()
      ensures history == old(history) && selectedBlockId == old(selectedBlockId)
      ensures old(historyIndex) > 0 ==> historyIndex == old(historyIndex) - 1 && document == history[historyIndex]
      ensures old(historyIndex) == 0 ==> historyIndex == 0 && document == old(document)
    {
      if historyIndex > 0 {
        historyIndex := historyIndex - 1;
        document := history[historyIndex];
      }
    }

    /** Steps the cursor forward and restores that snapshot; a no-op at the last snapshot. */
    method Redo()
      requires Valid()
      modifies this
      ensures Valid()
      ensures history == old(history) && selectedBlockId == old(selectedBlockId)
      ensures old(historyIndex) + 1 < |history| ==> historyIndex == old(historyIndex) + 1 && document == history[historyIndex]
      ensures old(historyIndex) + 1 >= |history| ==> historyIndex == old(historyIndex) && document == old(document)
    {
      if historyIndex < |history| - 1 {
        historyIndex := historyIndex + 1;
        document := history[historyIndex];
      }
    }

    /** Renames the document; records no snapshot. */
    method NameChange(name: string)
      requires Valid()
      modifies this
      ensures Valid()
      ensures document == old(document).(name := name)
      ensures history == old(history) && historyIndex == old(historyIndex) && selectedBlockId == old(selectedBlockId)
    {
      document := document.(name := name);
    }

    method SelectBlock(id: Option<string>)
      requires Valid()
      modifies this
      ensures Valid()
      ensures selectedBlockId == id
      ensures document == old(document) && history == old(history) && historyIndex == old(historyIndex)
    {
      selectedBlockId := id;
    }
  }

  /**
   * add, add, undo, add: the snapshot of the second add is gone for good,
   * redo is then a no-op, and the cursor is on the last of three snapshots.
   */
  method UndoThenAddDiscardsFuture(t: BlockType, id1: string, id2: string, id3: string)
    returns (canRedo: bool, cursor: nat, snapshots: nat, blocksAfterRedo: seq<EmailBlock>)
    ensures !canRedo && cursor == 2 && snapshots == 3
    ensures blocksAfterRedo == [CreateBlock(t, id1), CreateBlock(t, id3)]
  {
    var s := new EmailBuilderSession();
    s.AddBlock(t, id1);
    s.AddBlock(t, id2);
    s.Undo();
    s.AddBlock(t, id3);
    canRedo := s.CanRedo();
    s.Redo();
    cursor, snapshots, blocksAfterRedo := s.historyIndex, |s.history|, s.document.blocks;
  }
}
