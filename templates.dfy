/**
 * The response-template page: the template list held in the page state,
 * its search and type/category filters, and saving (replace on edit, append
 * on create) and deleting templates.
 */
module Templates {
  import opened Wrappers
  import opened Seqs
  import opened Text
  import Decimal

  /** A template; `kind` is the source's `type` field. */
  datatype Template = Template(
    id: string,
    name: string,
    subject: Option<string>,
    content: string,
    kind: string,
    category: string,
    isActive: bool,
    usageCount: int,
    createdAt: string,
    createdBy: string)

  /** The new-template form. */
  datatype Draft = Draft(name: string, subject: string, content: string, kind: string, category: string)

  /** The empty new-template form. */
  const DefaultDraft: Draft := Draft("", "", "", "quick_reply", "Geral")

  /**
   * The ids of a template list, in order (`map(t => t.id)`); each record type
   * of the pages has its own id projection, as `Kanban.ColumnIds` is for columns.
   */
  function Ids(ts: seq<Template>): (r: seq<string>)
    ensures |r| == |ts| && forall i :: 0 <= i < |ts| ==> r[i] == ts[i].id
    decreases |ts|
  {
    if |ts| == 0 then [] else [ts[0].id] + Ids(ts[1..])
  }

  /** The predicate of `filteredTemplates`. */
  predicate MatchesTemplate(t: Template, searchTerm: string, selectedType: string, selectedCategory: string)
  {
    var term := Lower(searchTerm);
    && (Includes(Lower(t.name), term) || Includes(Lower(t.content), term))
    && (selectedType == "all" || t.kind == selectedType)
    && (selectedCategory == "all" || t.category == selectedCategory)
  }

  /** `filteredTemplates`: the matching templates, in list order. */
  function FilteredTemplates(ts: seq<Template>, searchTerm: string, selectedType: string, selectedCategory: string)
    : (r: seq<Template>)
    ensures IsSubsequence(r, ts)
    ensures forall t :: t in r <==> t in ts && MatchesTemplate(t, searchTerm, selectedType, selectedCategory)
    ensures forall t :: multiset(r)[t] ==
              if MatchesTemplate(t, searchTerm, selectedType, selectedCategory) then multiset(ts)[t] else 0
  {
    var p := (t: Template) => MatchesTemplate(t, searchTerm, selectedType, selectedCategory);
    FilterIsSubsequence(ts, p);
    FilterMultiset(ts, p);
    Filter(ts, p)
  }

  /** With an empty search and both selectors on "all", every template is listed. */
  lemma UnfilteredListsAll(ts: seq<Template>)
    ensures FilteredTemplates(ts, "", "all", "all") == ts
  {
    forall i | 0 <= i < |ts|
      ensures MatchesTemplate(ts[i], "", "all", "all")
    {
      IncludesEmpty(Lower(ts[i].name));
    }
    FilterKeepsAll(ts, (t: Template) => MatchesTemplate(t, "", "all", "all"));
  }

  /** `getTypeLabel`: the three known types get a label, any other text is shown as it is. */
  function TypeLabel(kind: string): (shown: string)
    ensures kind == "quick_reply" ==> shown == "Resposta Rápida"
    ensures kind == "auto_response" ==> shown == "Resposta Automática"
    ensures kind == "email_template" ==> shown == "Template Email"
    ensures kind != "quick_reply" && kind != "auto_response" && kind != "email_template" ==> shown == kind
  {
    if kind == "quick_reply" then "Resposta Rápida"
    else if kind == "auto_response" then "Resposta Automática"
    else if kind == "email_template" then "Template Email"
    else kind
  }

  /** The edit branch of saving: `templates.map(t => t.id === edited.id ? edited : t)`. */
  function ReplaceById(ts: seq<Template>, edited: Template): (r: seq<Template>)
    ensures |r| == |ts|
    ensures forall i :: 0 <= i < |ts| && ts[i].id == edited.id ==> r[i] == edited
    ensures forall i :: 0 <= i < |ts| && ts[i].id != edited.id ==> r[i] == ts[i]
    ensures Ids(r) == Ids(ts)
  {
    seq(|ts|, i requires 0 <= i < |ts| => if ts[i].id == edited.id then edited else ts[i])
  }

  /** Saving the same edit twice has the effect of saving it once. */
  lemma ReplaceIdempotent(ts: seq<Template>, edited: Template)
    ensures ReplaceById(ReplaceById(ts, edited), edited) == ReplaceById(ts, edited)
  {
  }

  /** `templates.filter(t => t.id !== id)`. */
  function RemoveById(ts: seq<Template>, id: string): (r: seq<Template>)
    ensures IsSubsequence(r, ts)
    ensures forall t :: t in r <==> t in ts && t.id != id
    ensures forall t :: multiset(r)[t] == if t.id == id then 0 else multiset(ts)[t]
  {
    FilterIsSubsequence(ts, (t: Template) => t.id != id);
    FilterMultiset(ts, (t: Template) => t.id != id);
    Filter(ts, (t: Template) => t.id != id)
  }

  /** Deleting a template that was just created, under an id no other template has, undoes the creation. */
  lemma DeleteUndoesCreate(ts: seq<Template>, t: Template)
    requires t.id !in Ids(ts)
    ensures RemoveById(ts + [t], t.id) == ts
  {
    var p := (x: Template) => x.id != t.id;
    forall i | 0 <= i < |ts| ensures p(ts[i]) {
      assert Ids(ts)[i] == ts[i].id;
    }
    FilterConcat(ts, [t], p);
    FilterKeepsAll(ts, p);
  }

  /** The template the create branch appends: the draft, active, unused, by "Current User". */
  function NewTemplate(draft: Draft, nowMs: nat, today: string): (t: Template)
    ensures t.id == Decimal.NatToString(nowMs)
    ensures t.name == draft.name && t.subject == Some(draft.subject) && t.content == draft.content
    ensures t.kind == draft.kind && t.category == draft.category
    ensures t.isActive && t.usageCount == 0
    ensures t.createdAt == today && t.createdBy == "Current User"
  {
    Template(Decimal.NatToString(nowMs), draft.name, Some(draft.subject), draft.content, draft.kind,
             draft.category, true, 0, today, "Current User")
  }

  /** The page state. */
  class TemplatesPage {
    var templates: seq<Template>
    var editingTemplate: Option<Template>
    var newTemplate: Draft
    var showNewTemplate: bool

    constructor (initial: seq<Template>)
      ensures templates == initial && editingTemplate == None
      ensures newTemplate == DefaultDraft && !showNewTemplate
    {
      templates := initial;
      editingTemplate := None;
      newTemplate := DefaultDraft;
      showNewTemplate := false;
    }

    /** The edit button: the template is copied into the editor. */
    method StartEditing(t: Template)
      modifies this
      ensures editingTemplate == Some(t)
      ensures templates == old(templates) && newTemplate == old(newTemplate)
      ensures showNewTemplate == old(showNewTemplate)
    {
      editingTemplate := Some(t);
    }

    /**
     * `handleSaveTemplate`. An edit replaces every template with the edited id;
     * otherwise the draft is appended as a new template (its id is the clock
     * reading `nowMs` as text) and the draft is cleared.
     */
    method SaveTemplate(nowMs: nat, today: string)
      modifies this
      ensures old(editingTemplate).Some? ==>
        && templates == ReplaceById(old(templates), old(editingTemplate).value)
        && editingTemplate == None
        && newTemplate == old(newTemplate) && showNewTemplate == old(showNewTemplate)
      ensures old(editingTemplate) == None ==>
        && templates == old(templates) + [NewTemplate(old(newTemplate), nowMs, today)]
        && newTemplate == DefaultDraft && !showNewTemplate && editingTemplate == None
      ensures |templates| == |old(templates)| + (if old(editingTemplate) == None then 1 else 0)
    {
      match editingTemplate
      case Some(edited) =>
        templates := ReplaceById(templates, edited);
        editingTemplate := None;
      case None =>
        var template := NewTemplate(newTemplate, nowMs, today);
        templates := templates + [template];
        newTemplate := DefaultDraft;
        showNewTemplate := false;
    }

    /** `handleDeleteTemplate`. */
    method DeleteTemplate(id: string)
      modifies this
      ensures templates == RemoveById(old(templates), id)
      ensures editingTemplate == old(editingTemplate) && newTemplate == old(newTemplate)
      ensures showNewTemplate == old(showNewTemplate)
    {
      templates := RemoveById(templates, id);
    }

    /** `filteredTemplates` over the current list. */
    function Filtered(searchTerm: string, selectedType: string, selectedCategory: string): (r: seq<Template>)
      reads this
      ensures IsSubsequence(r, templates)
      ensures forall t :: t in r <==> t in templates && MatchesTemplate(t, searchTerm, selectedType, selectedCategory)
      ensures forall t :: multiset(r)[t] ==
                if MatchesTemplate(t, searchTerm, selectedType, selectedCategory) then multiset(templates)[t] else 0
    {
      FilteredTemplates(templates, searchTerm, selectedType, selectedCategory)
    }
  }
}
