/**
 * The profile-template service: custom templates kept in browser storage under one
 * key (load, upsert, delete), and the two block copies that give every block a new
 * id (creating a template from the current blocks, applying a template).
 *
 * Fresh ids come from `Date.now()` and `Math.random()`; here they are a parameter
 * `newId(i)` naming the id generated for the `i`-th block, and `templateId`, `now`.
 */
module ProfileTemplates {
  import opened Wrappers

  datatype BlockType = Text | Media | Video | Contact | Logo | Map | Stats | Testimonials
                     | Certifications | Social | Collaborators

  datatype BlockSize = Small | Medium | Large | Full | Tall | Wide | Hero | Square

  datatype ProfileBlock = ProfileBlock(id: string, kind: BlockType, title: Option<string>,
                                       content: Option<string>, order: int, size: BlockSize)

  datatype ProfileTemplate = ProfileTemplate(id: string, name: string, description: string,
                                             thumbnail: Option<string>, blocks: seq<ProfileBlock>,
                                             isDefault: Option<bool>, createdBy: Option<string>,
                                             createdAt: Option<int>)

  /** What the storage key holds: nothing (or an empty string), text that does not
      parse, or the JSON of a template list. */
  datatype Stored = Absent | Unparsable | Saved(templates: seq<ProfileTemplate>)

  /** `existing.filter(t => t.id !== id)`. */
  function WithoutTemplate(ts: seq<ProfileTemplate>, id: string): seq<ProfileTemplate>
    decreases |ts|
  {
    if ts == [] then []
    else
      var last := ts[|ts| - 1];
      WithoutTemplate(ts[..|ts| - 1], id) + (if last.id != id then [last] else [])
  }

  /** The filtered list with the saved template pushed at the end. */
  function Upserted(ts: seq<ProfileTemplate>, t: ProfileTemplate): seq<ProfileTemplate> {
    WithoutTemplate(ts, t.id) + [t]
  }

  /** How many templates carry `id`. */
  function IdCount(ts: seq<ProfileTemplate>, id: string): nat
    decreases |ts|
  {
    if ts == [] then 0 else IdCount(ts[..|ts| - 1], id) + (if ts[|ts| - 1].id == id then 1 else 0)
  }

  lemma IdCountAppend(ts: seq<ProfileTemplate>, t: ProfileTemplate, id: string)
    ensures IdCount(ts + [t], id) == IdCount(ts, id) + (if t.id == id then 1 else 0)
  {
    assert (ts + [t])[..|ts + [t]| - 1] == ts;
  }

  /** Deleting removes every template with the id and keeps every other one. */
  lemma {:induction false} WithoutTemplateMembers(ts: seq<ProfileTemplate>, id: string)
    decreases |ts|
    ensures forall t :: t in WithoutTemplate(ts, id) <==> t in ts && t.id != id
  {
    if ts != [] {
      WithoutTemplateMembers(ts[..|ts| - 1], id);
      assert ts == ts[..|ts| - 1] + [ts[|ts| - 1]];
    }
  }

  /** Deleting leaves no template with the id and every other id's count unchanged. */
  lemma {:induction false} WithoutTemplateCount(ts: seq<ProfileTemplate>, id: string, other: string)
    decreases |ts|
    ensures IdCount(WithoutTemplate(ts, id), other) == if other == id then 0 else IdCount(ts, other)
  {
    if ts != [] {
      var init := ts[..|ts| - 1];
      var last := ts[|ts| - 1];
      WithoutTemplateCount(init, id, other);
      var w := WithoutTemplate(init, id);
      assert IdCount(ts, other) == IdCount(init, other) + (if last.id == other then 1 else 0);
      if last.id != id {
        assert WithoutTemplate(ts, id) == w + [last];
        IdCountAppend(w, last, other);
      } else {
        assert WithoutTemplate(ts, id) == w + [];
        assert w + [] == w;
      }
    }
  }

  lemma {:induction false} WithoutTemplateLength(ts: seq<ProfileTemplate>, id: string)
    decreases |ts|
    ensures |WithoutTemplate(ts, id)| == |ts| - IdCount(ts, id)
  {
    if ts != [] {
      WithoutTemplateLength(ts[..|ts| - 1], id);
    }
  }

  /** After a save exactly one template has the saved id, it is the last one and it is
      the saved template; every other id keeps its templates. */
  lemma UpsertedSpec(ts: seq<ProfileTemplate>, t: ProfileTemplate)
    ensures IdCount(Upserted(ts, t), t.id) == 1
    ensures Upserted(ts, t)[|Upserted(ts, t)| - 1] == t
    ensures forall other :: other != t.id ==> IdCount(Upserted(ts, t), other) == IdCount(ts, other)
  {
    WithoutTemplateCount(ts, t.id, t.id);
    IdCountAppend(WithoutTemplate(ts, t.id), t, t.id);
    forall other | other != t.id ensures IdCount(Upserted(ts, t), other) == IdCount(ts, other) {
      WithoutTemplateCount(ts, t.id, other);
      IdCountAppend(WithoutTemplate(ts, t.id), t, other);
    }
  }

  lemma {:induction false} WithoutTemplateAbsent(ts: seq<ProfileTemplate>, id: string)
    requires IdCount(ts, id) == 0
    decreases |ts|
    ensures WithoutTemplate(ts, id) == ts
  {
    if ts != [] {
      WithoutTemplateAbsent(ts[..|ts| - 1], id);
      assert ts == ts[..|ts| - 1] + [ts[|ts| - 1]];
    }
  }

  lemma {:induction false} WithoutTemplateTwice(ts: seq<ProfileTemplate>, id: string)
    ensures WithoutTemplate(WithoutTemplate(ts, id), id) == WithoutTemplate(ts, id)
  {
    WithoutTemplateCount(ts, id, id);
    WithoutTemplateAbsent(WithoutTemplate(ts, id), id);
  }

  /** Saving the same template twice stores what saving once does, and deleting after
      saving leaves what deleting alone leaves. */
  lemma UpsertedThenDeleted(ts: seq<ProfileTemplate>, t: ProfileTemplate)
    ensures Upserted(Upserted(ts, t), t) == Upserted(ts, t)
    ensures WithoutTemplate(Upserted(ts, t), t.id) == WithoutTemplate(ts, t.id)
  {
    var w := WithoutTemplate(ts, t.id);
    assert (w + [t])[..|w + [t]| - 1] == w;
    WithoutTemplateTwice(ts, t.id);
  }

  /** The browser storage behind the service. */
  class TemplateStorage {
    var stored: Stored

    constructor ()
      ensures stored == Absent
    {
      stored := Absent;
    }

    /** `loadCustomTemplates`: the parsed list, or `[]` when the key is empty or does
        not parse. */
    function Load(): seq<ProfileTemplate>
      reads this
    {
      if stored.Saved? then stored.templates else []
    }

    /** `saveCustomTemplate`: drop the templates with the same id, push the template,
        write the list back. */
    method Save(t: ProfileTemplate)
      modifies this
      ensures stored == Saved(Upserted(old(Load()), t))
      ensures IdCount(Load(), t.id) == 1 && Load()[|Load()| - 1] == t
    {
      var existing := Load();
      var updated := WithoutTemplate(existing, t.id);
      updated := updated + [t];
      stored := Saved(updated);
      UpsertedSpec(existing, t);
    }

    /** `deleteCustomTemplate`: write back the list without the id. */
    method Delete(templateId: string)
      modifies this
      ensures stored == Saved(WithoutTemplate(old(Load()), templateId))
      ensures IdCount(Load(), templateId) == 0
    {
      var existing := Load();
      stored := Saved(WithoutTemplate(existing, templateId));
      WithoutTemplateCount(existing, templateId, templateId);
    }
  }

  // ---------------------------------------------------------------------------
  // Copies of blocks with fresh ids
  // ---------------------------------------------------------------------------

  /** A block with its id cleared: what a copy keeps of it. */
  function Body(b: ProfileBlock): ProfileBlock {
    b.(id := "")
  }

  /** `createTemplateFromBlocks`: the blocks with new ids, not a default template,
      created by the given email at `now`. */
  function TemplateFromBlocks(blocks: seq<ProfileBlock>, name: string, description: string,
                              userEmail: Option<string>, templateId: string,
                              newId: nat -> string, now: int): (r: ProfileTemplate)
    ensures r.id == templateId && r.name == name && r.description == description
    ensures r.isDefault == Some(false) && r.createdBy == userEmail && r.createdAt == Some(now)
    ensures |r.blocks| == |blocks|
    ensures forall i :: 0 <= i < |blocks| ==>
      r.blocks[i].id == newId(i) && Body(r.blocks[i]) == Body(blocks[i]) && r.blocks[i].order == blocks[i].order
  {
    var newBlocks := seq(|blocks|, i requires 0 <= i < |blocks| => blocks[i].(id := newId(i)));
    ProfileTemplate(templateId, name, description, None, newBlocks, Some(false), userEmail, Some(now))
  }

  /** `applyTemplate`: the template's blocks with new ids and `order` set to their
      position. */
  function ApplyTemplate(template: ProfileTemplate, newId: nat -> string): (r: seq<ProfileBlock>)
    ensures |r| == |template.blocks|
    ensures forall i :: 0 <= i < |r| ==>
      && r[i].id == newId(i) && r[i].order == i
      && r[i].kind == template.blocks[i].kind && r[i].title == template.blocks[i].title
      && r[i].content == template.blocks[i].content && r[i].size == template.blocks[i].size
  {
    seq(|template.blocks|, i requires 0 <= i < |template.blocks| =>
      template.blocks[i].(id := newId(i), order := i))
  }

  /** With distinct fresh ids the applied blocks have pairwise distinct ids, and
      applying a template twice gives the same blocks up to ids. */
  lemma ApplyTemplateIds(template: ProfileTemplate, newId: nat -> string, otherId: nat -> string)
    requires forall i, j :: 0 <= i < j < |template.blocks| ==> newId(i) != newId(j)
    ensures forall i, j :: 0 <= i < j < |template.blocks| ==>
      ApplyTemplate(template, newId)[i].id != ApplyTemplate(template, newId)[j].id
    ensures forall i :: 0 <= i < |template.blocks| ==>
      Body(ApplyTemplate(template, newId)[i]) == Body(ApplyTemplate(template, otherId)[i])
  {
  }

  /** A template made from some blocks and then applied gives those blocks back,
      renumbered by position. */
  lemma CreateThenApply(blocks: seq<ProfileBlock>, name: string, description: string,
                        userEmail: Option<string>, templateId: string, ids: nat -> string,
                        newId: nat -> string, now: int)
    ensures var r := ApplyTemplate(TemplateFromBlocks(blocks, name, description, userEmail,
                                                      templateId, ids, now), newId);
      && |r| == |blocks|
      && forall i :: 0 <= i < |r| ==> Body(r[i]) == Body(blocks[i]).(order := i)
  {
  }
}
