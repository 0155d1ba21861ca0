/** Saved task templates: a list that grows by appending a template with a
    fresh id and shrinks by deleting every template with a given id. */
module Templates {
  import opened Types
  import opened Lists

  datatype TaskTemplate = TaskTemplate(
    id: string,
    name: string,
    category: Option<string>,
    plannedDuration: Option<int>,
    startHour: Option<int>)

  /** A template as the caller describes it, before it is given an id. */
  datatype TemplateDraft = TemplateDraft(
    name: string,
    category: Option<string>,
    plannedDuration: Option<int>,
    startHour: Option<int>)

  function TemplateWithId(d: TemplateDraft, id: string): (t: TaskTemplate)
    ensures t.id == id && t.name == d.name && t.category == d.category
    ensures t.plannedDuration == d.plannedDuration && t.startHour == d.startHour
  {
    TaskTemplate(id, d.name, d.category, d.plannedDuration, d.startHour)
  }

  function NotTemplateId(id: string): TaskTemplate -> bool {
    (t: TaskTemplate) => t.id != id
  }

  /** The templates whose id differs from `id`, in their order. */
  function WithoutTemplate(templates: seq<TaskTemplate>, id: string): (r: seq<TaskTemplate>)
    ensures |r| <= |templates|
  {
    Filter(templates, NotTemplateId(id))
  }

  /** Deleting removes every template with the id and keeps every other one
      as often as it occurred. */
  lemma WithoutTemplateExactly(templates: seq<TaskTemplate>, id: string, t: TaskTemplate)
    ensures t in WithoutTemplate(templates, id) <==> t in templates && t.id != id
    ensures multiset(WithoutTemplate(templates, id))[t] == if t.id == id then 0 else multiset(templates)[t]
  {
    FilterMembership(templates, NotTemplateId(id), t);
    FilterCount(templates, NotTemplateId(id), t);
  }

  /** Deleting keeps the order of what is left: deleting from a concatenation
      deletes from each part. */
  lemma WithoutTemplateKeepsOrder(a: seq<TaskTemplate>, b: seq<TaskTemplate>, id: string)
    ensures WithoutTemplate(a + b, id) == WithoutTemplate(a, id) + WithoutTemplate(b, id)
  {
    FilterConcat(a, b, NotTemplateId(id));
  }

  /** Deleting an id no template has leaves the list as it was. */
  lemma WithoutAbsentTemplate(templates: seq<TaskTemplate>, id: string)
    requires forall k :: 0 <= k < |templates| ==> templates[k].id != id
    ensures WithoutTemplate(templates, id) == templates
  {
    FilterKeepsAll(templates, NotTemplateId(id));
  }

  /** Adding a template under an id no template has and then deleting that id
      gives back the list from before the addition. */
  lemma AddThenDeleteRestores(templates: seq<TaskTemplate>, d: TemplateDraft, freshId: string)
    requires forall k :: 0 <= k < |templates| ==> templates[k].id != freshId
    ensures WithoutTemplate(templates + [TemplateWithId(d, freshId)], freshId) == templates
  {
    var t := TemplateWithId(d, freshId);
    FilterConcat(templates, [t], NotTemplateId(freshId));
    FilterSingleton(t, NotTemplateId(freshId));
    WithoutAbsentTemplate(templates, freshId);
  }

  class TemplateList {
    var templates: seq<TaskTemplate>

    /** A list with nothing saved yet. */
    constructor()
      ensures templates == []
    {
      templates := [];
    }

    /** `save`: the given list replaces the current one. */
    method Save(t: seq<TaskTemplate>)
      modifies this
      ensures templates == t
    {
      templates := t;
    }

    /** `addTemplate`: the draft with the fresh id, appended and returned. */
    method AddTemplate(d: TemplateDraft, freshId: string) returns (t: TaskTemplate)
      modifies this
      ensures t == TemplateWithId(d, freshId)
      ensures templates == old(templates) + [t]
    {
      t := TemplateWithId(d, freshId);
      Save(templates + [t]);
    }

    /** `deleteTemplate`: every template with the id goes, the rest stay. */
    method DeleteTemplate(id: string)
      modifies this
      ensures templates == WithoutTemplate(old(templates), id)
    {
      Save(WithoutTemplate(templates, id));
    }
  }
}
