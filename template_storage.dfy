/**
 * Saved templates: a list of named document snapshots with timestamps, and
 * the id of the template currently being edited.
 */
module TemplateStorage {
  import opened Wrappers
  import opened ArrayOps
  import opened EmailBuilderTypes

  datatype SavedTemplate = SavedTemplate(
    id: string,
    name: string,
    document: EmailDocument,
    createdAt: int,
    updatedAt: int)

  /** The first template with `id`, if any. */
  function FindTemplate(ts: seq<SavedTemplate>, id: string): (r: Option<SavedTemplate>)
    ensures r.None? <==> forall i :: 0 <= i < |ts| ==> ts[i].id != id
    ensures r.Some? ==>
      exists k :: 0 <= k < |ts| && ts[k] == r.value && r.value.id == id && (forall i :: 0 <= i < k ==> ts[i].id != id)
  {
    var k := FindIndex(ts, (t: SavedTemplate) => t.id == id);
    if k == -1 then None else Some(ts[k])
  }

  /** The template after an update in place: new name and document, new updatedAt, same id and createdAt. */
  function Resaved(t: SavedTemplate, doc: EmailDocument, now: int): SavedTemplate {
    t.(name := doc.name, document := doc, updatedAt := now)
  }

  /** Every template with `id` is resaved with `doc` at `now`; the others are kept. */
  function SaveInto(ts: seq<SavedTemplate>, id: string, doc: EmailDocument, now: int): (r: seq<SavedTemplate>)
    ensures |r| == |ts|
    ensures forall i :: 0 <= i < |ts| ==> r[i] == if ts[i].id == id then Resaved(ts[i], doc, now) else ts[i]
  {
    MapWhere(ts, (t: SavedTemplate) => t.id == id, (t: SavedTemplate) => Resaved(t, doc, now))
  }

  /** Every template with `id` is removed; the others keep their multiplicity. */
  function RemoveTemplates(ts: seq<SavedTemplate>, id: string): (r: seq<SavedTemplate>)
    ensures |r| <= |ts|
    ensures forall t: SavedTemplate :: t in r ==> t.id != id
    ensures forall t: SavedTemplate :: t.id != id ==> multiset(r)[t] == multiset(ts)[t]
  {
    Filter(ts, (t: SavedTemplate) => t.id != id)
  }

  /** Deletion keeps the surviving templates in their order: it works element by element and distributes over concatenation. */
  lemma RemoveTemplatesInOrder(front: seq<SavedTemplate>, back: seq<SavedTemplate>, x: SavedTemplate, id: string)
    ensures RemoveTemplates(front + back, id) == RemoveTemplates(front, id) + RemoveTemplates(back, id)
    ensures RemoveTemplates([x], id) == if x.id == id then [] else [x]
  {
    FilterAppend(front, back, (t: SavedTemplate) => t.id != id);
  }

  /** A template that is found again after an in-place save holds the saved document. */
  lemma SaveThenFind(ts: seq<SavedTemplate>, id: string, doc: EmailDocument, now: int)
    requires FindTemplate(ts, id).Some?
    ensures FindTemplate(SaveInto(ts, id, doc, now), id) == Some(Resaved(FindTemplate(ts, id).value, doc, now))
  {
    var r := SaveInto(ts, id, doc, now);
    var k :| 0 <= k < |ts| && ts[k] == FindTemplate(ts, id).value && ts[k].id == id &&
      (forall i :: 0 <= i < k ==> ts[i].id != id);
    assert r[k] == Resaved(ts[k], doc, now);
    forall i | 0 <= i < k ensures r[i].id != id {
      assert r[i] == ts[i];
    }
    assert FindIndex(r, (t: SavedTemplate) => t.id == id) == k;
  }

  /** A new template appended under a fresh id is found with the document it was given. */
  lemma AppendThenFind(ts: seq<SavedTemplate>, newId: string, doc: EmailDocument, now: int)
    requires forall i :: 0 <= i < |ts| ==> ts[i].id != newId
    ensures FindTemplate(ts + [SavedTemplate(newId, doc.name, doc, now, now)], newId)
      == Some(SavedTemplate(newId, doc.name, doc, now, now))
  {
    var r := ts + [SavedTemplate(newId, doc.name, doc, now, now)];
    assert r[|ts|].id == newId;
    var k :| 0 <= k < |r| && r[k] == FindTemplate(r, newId).value && r[k].id == newId;
    assert k == |ts|;
  }

  /** After deletion the id is not found. */
  lemma DeleteThenFind(ts: seq<SavedTemplate>, id: string)
    ensures FindTemplate(RemoveTemplates(ts, id), id).None?
  {
    var r := RemoveTemplates(ts, id);
    forall i | 0 <= i < |r| ensures r[i].id != id {
      assert r[i] in r;
    }
  }

  /**
   * The index the reduction `(a, b) => a.updatedAt > b.updatedAt ? a : b`
   * ends on: a template with the largest updatedAt, the last one when
   * several share it.
   */
  method MostRecentIndex(ts: seq<SavedTemplate>) returns (k: nat)
    requires |ts| > 0
    ensures k < |ts|
    ensures forall i :: 0 <= i < |ts| ==> ts[i].updatedAt <= ts[k].updatedAt
    ensures forall i :: k < i < |ts| ==> ts[i].updatedAt < ts[k].updatedAt
  {
    k := 0;
    var i := 1;
    while i < |ts|
      invariant 1 <= i <= |ts| && k < i
      invariant forall j :: 0 <= j < i ==> ts[j].updatedAt <= ts[k].updatedAt
      invariant forall j :: k < j < i ==> ts[j].updatedAt < ts[k].updatedAt
    {
      if !(ts[k].updatedAt > ts[i].updatedAt) {
        k := i;
      }
      i := i + 1;
    }
  }

  class TemplateStore {
    var templates: seq<SavedTemplate>
    var currentTemplateId: Option<string>

    constructor ()
      ensures templates == [] && currentTemplateId == None
    {
      templates := [];
      currentTemplateId := None;
    }

    /**
     * Adopts the stored list (None: nothing stored, or it did not parse) and
     * makes its most recently updated template the current one.
     */
    method Mount(stored: Option<seq<SavedTemplate>>)
      modifies this
      ensures stored.None? ==> templates == old(templates) && currentTemplateId == old(currentTemplateId)
      ensures stored.Some? ==> templates == stored.value
      ensures stored.Some? && stored.value == [] ==> currentTemplateId == old(currentTemplateId)
      ensures stored.Some? && stored.value != [] ==>
        exists k :: 0 <= k < |templates| && currentTemplateId == Some(templates[k].id) &&
          (forall i :: 0 <= i < |templates| ==> templates[i].updatedAt <= templates[k].updatedAt) &&
          (forall i :: k < i < |templates| ==> templates[i].updatedAt < templates[k].updatedAt)
    {
      if stored.Some? {
        templates := stored.value;
        if |templates| > 0 {
          var k := MostRecentIndex(templates);
          currentTemplateId := Some(templates[k].id);
        }
      }
    }

    /**
     * With a current template, resaves it in place and returns its id;
     * otherwise appends a new template under `newId` and makes it current.
     */
    method SaveTemplate(doc: EmailDocument, newId: string, now: int) returns (id: string)
      modifies this
      ensures Truthy(old(currentTemplateId)) ==>
        && id == old(currentTemplateId).value
        && templates == SaveInto(old(templates), id, doc, now)
        && currentTemplateId == old(currentTemplateId)
      ensures !Truthy(old(currentTemplateId)) ==>
        && id == newId
        && templates == old(templates) + [SavedTemplate(newId, doc.name, doc, now, now)]
        && currentTemplateId == Some(newId)
    {
      if Truthy(currentTemplateId) {
        id := currentTemplateId.value;
        templates := SaveInto(templates, id, doc, now);
        return;
      }
      templates := templates + [SavedTemplate(newId, doc.name, doc, now, now)];
      currentTemplateId := Some(newId);
      id := newId;
    }

    /** The document of the template with `id`, which becomes current; None and no change when absent. */
    method LoadTemplate(id: string) returns (doc: Option<EmailDocument>)
      modifies this
      ensures templates == old(templates)
      ensures FindTemplate(templates, id).None? ==> doc.None? && currentTemplateId == old(currentTemplateId)
      ensures FindTemplate(templates, id).Some? ==>
        doc == Some(FindTemplate(templates, id).value.document) && currentTemplateId == Some(id)
    {
      var t := FindTemplate(templates, id);
      if t.Some? {
        currentTemplateId := Some(id);
        return Some(t.value.document);
      }
      return None;
    }

    /** Removes the templates with `id` and forgets it as current. */
    method DeleteTemplate(id: string)
      modifies this
      ensures templates == RemoveTemplates(old(templates), id)
      ensures currentTemplateId == if old(currentTemplateId) == Some(id) then None else old(currentTemplateId)
    {
      templates := RemoveTemplates(templates, id);
      if currentTemplateId == Some(id) {
        currentTemplateId := None;
      }
    }

    /** Starts a new unsaved template: the next save appends. */
    method CreateNewTemplate()
      modifies this
      ensures templates == old(templates) && currentTemplateId == None
    {
      currentTemplateId := None;
    }

    method SetCurrentTemplateId(id: Option<string>)
      modifies this
      ensures templates == old(templates) && currentTemplateId == id
    {
      currentTemplateId := id;
    }
  }

  /**
   * Saving a new document under a fresh id and loading it back returns the
   * document, and a second save of another document updates the same
   * template instead of adding one.
   */
  method SaveLoadRoundTrip(ts: seq<SavedTemplate>, doc1: EmailDocument, doc2: EmailDocument, newId: string, t1: int, t2: int)
    returns (loaded: Option<EmailDocument>, count: nat, secondId: string)
    requires newId != "" && forall i :: 0 <= i < |ts| ==> ts[i].id != newId
    ensures loaded == Some(doc2) && count == |ts| + 1 && secondId == newId
  {
    var store := new TemplateStore();
    store.Mount(Some(ts));
    store.CreateNewTemplate();
    var id := store.SaveTemplate(doc1, newId, t1);
    AppendThenFind(ts, newId, doc1, t1);
    secondId := store.SaveTemplate(doc2, "unused", t2);
    SaveThenFind(ts + [SavedTemplate(newId, doc1.name, doc1, t1, t1)], newId, doc2, t2);
    loaded := store.LoadTemplate(newId);
    count := |store.templates|;
  }
}
