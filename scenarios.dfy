/**
 * End-to-end compositions of the session and the design-system provider,
 * each stating its outcome as a postcondition.
 */
module Scenarios {
  import opened Wrappers
  import ContentTree
  import opened DesignSystemTypes
  import opened DesignSystemPresets
  import opened DesignSystemContext
  import opened EmailBuilderTypes
  import opened EmailBuilderUtils
  import opened EmailBuilder

  /**
   * A blank document gets one heading block; with no active design system it
   * resolves to the default heading colour and reads "Your Heading Here".
   */
  method NewHeadingWithDefaults(id: string) returns (color: Option<string>, text: string, level: int)
    ensures color == Some("#000000") && text == "Your Heading Here" && level == 1
  {
    var session := new EmailBuilderSession();
    session.AddBlock(Heading, id);
    var selected := session.SelectedBlock();
    assert session.document.blocks == [CreateBlock(Heading, id)];
    NewHeading(id);
    var block := selected.value;
    var provider := new DesignSystemProvider();
    color := provider.ResolveBlockStyles(block).color;
    text := ContentTree.TextContent(block.content);
    level := block.level;
  }

  /**
   * A button with a red background override keeps it when "bold-corporate"
   * becomes active, although that preset's button background is "#2563eb".
   */
  method ButtonOverrideUnderBoldCorporate(id: string) returns (resolved: Option<string>, presetValue: string)
    ensures resolved == Some("#ff0000") && presetValue == "#2563eb"
  {
    var session := new EmailBuilderSession();
    session.AddBlock(Button, id);
    session.UpdateBlockWithHistory(id, NoUpdates.(backgroundColor := Some(Some("#ff0000"))));
    assert session.document.blocks[0] == ApplyBlockUpdates(CreateBlock(Button, id), NoUpdates.(backgroundColor := Some(Some("#ff0000"))));
    var selected := session.SelectedBlock();
    var provider := new DesignSystemProvider();
    provider.SetActiveDesignSystemId(Some("bold-corporate"));
    assert PresetDesignSystems[1].id == "bold-corporate";
    assert provider.DesignSystems()[0].id != "bold-corporate";
    assert provider.ActiveDesignSystem() == Some(BoldCorporate);
    resolved := provider.ResolveBlockStyles(selected.value).backgroundColor;
    presetValue := provider.ActiveTokens().button.backgroundColor;
  }

  /**
   * With blocks a, b: moving a up and b down changes nothing and records
   * nothing; moving b up swaps them and records one snapshot.
   */
  method MoveAtBoundaries(t: BlockType, a: string, b: string)
    returns (boundaryMovesRecorded: bool, order: seq<EmailBlock>, snapshots: nat)
    requires a != b
    ensures !boundaryMovesRecorded
    ensures order == [CreateBlock(t, b), CreateBlock(t, a)] && snapshots == 4
  {
    var session := new EmailBuilderSession();
    session.AddBlock(t, a);
    session.AddBlock(t, b);
    boundaryMovesRecorded, order, snapshots := MovePair(session, CreateBlock(t, a), CreateBlock(t, b));
  }

  /** The moves of MoveAtBoundaries on a session holding exactly the blocks x, y and three snapshots. */
  method MovePair(session: EmailBuilderSession, x: EmailBlock, y: EmailBlock)
    returns (boundaryMovesRecorded: bool, order: seq<EmailBlock>, snapshots: nat)
    requires session.Valid() && x.id != y.id
    requires session.document.blocks == [x, y] && |session.history| == 3 && session.historyIndex == 2
    modifies session
    ensures !boundaryMovesRecorded && order == [y, x] && snapshots == 4
  {
    var before := session.history;
    MoveBoundaries([x, y]);
    MoveSecondUp(x, y);
    session.MoveBlock(x.id, Up);
    session.MoveBlock(y.id, Down);
    boundaryMovesRecorded := session.history != before;
    session.MoveBlock(y.id, Up);
    order, snapshots := session.document.blocks, |session.history|;
  }

  /**
   * A user system with its own heading colour drives resolution while it is
   * active; once deleted, resolution falls back to the default tokens.
   */
  method DeleteActiveFallsBack(id: string, newId: string, now: int)
    returns (whileActive: Option<string>, afterDelete: Option<string>)
    requires newId != "" && !IsPresetId(newId)
    ensures whileActive == Some("#123456") && afterDelete == Some("#000000")
  {
    var provider := new DesignSystemProvider();
    var ds := provider.CreateUserDesignSystem("Mine", newId, now);
    var recolour := NoTokenUpdates.(heading := Some(PartialHeadingTokens(Some("#123456"), None, None)));
    provider.UpdateDesignSystem(newId, DesignSystemUpdates(None, Some(recolour)), now);
    provider.SetActiveDesignSystemId(Some(newId));
    var heading := CreateBlock(Heading, id);
    PresetIds(newId);
    assert forall i :: 0 <= i < 3 ==> provider.DesignSystems()[i].id != newId;
    assert provider.DesignSystems()[3].id == newId;
    whileActive := provider.ResolveBlockStyles(heading).color;
    provider.DeleteDesignSystem(newId);
    afterDelete := provider.ResolveBlockStyles(heading).color;
  }
}
