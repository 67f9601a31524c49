/**
 * The decisions of src/pages/TemplateList.tsx: the search filter over the
 * templates, the count of active templates shown in the header, the status
 * switch and the category label.
 */
module TemplateList {
  import opened Wrappers
  import opened Types
  import opened Text
  import Seqs
  import Constants
  import DataContext

  /** The filter's predicate: the lowered term occurs in a lowered name, a lowered description or the lowered category. */
  predicate MatchesSearch(t: Template, searchTerm: string)
    ensures searchTerm == "" ==> MatchesSearch(t, searchTerm)
  {
    var term := Lower(searchTerm);
    Contains(Lower(t.name.zh), term) || Contains(Lower(t.name.en), term) || Contains(Lower(t.name.ar), term)
    || Contains(Lower(t.description.zh), term) || Contains(Lower(t.description.en), term)
    || Contains(Lower(t.description.ar), term) || Contains(Lower(t.category), term)
  }

  function SearchPredicate(searchTerm: string): Template -> bool {
    t => MatchesSearch(t, searchTerm)
  }

  /** `filteredTemplates`: everything for a blank term, otherwise the matching templates in their order. */
  function FilteredTemplates(templates: seq<Template>, searchTerm: string): (r: seq<Template>)
    ensures IsBlank(searchTerm) ==> r == templates
    ensures Seqs.IsSubsequence(r, templates)
    ensures !IsBlank(searchTerm) ==> forall i :: 0 <= i < |r| ==> MatchesSearch(r[i], searchTerm)
    ensures !IsBlank(searchTerm) ==>
      forall i :: 0 <= i < |templates| ==> (templates[i] in r <==> MatchesSearch(templates[i], searchTerm))
    ensures !IsBlank(searchTerm) ==>
      forall x :: Seqs.Occurrences(r, x) == if MatchesSearch(x, searchTerm) then Seqs.Occurrences(templates, x) else 0
  {
    if IsBlank(searchTerm) then Seqs.SubsequenceOfSelf(templates); templates
    else Seqs.FilterOccurrences(templates, SearchPredicate(searchTerm)); Seqs.Filter(templates, SearchPredicate(searchTerm))
  }

  /** The search does not depend on the case of the term. */
  lemma SearchIgnoresCase(templates: seq<Template>, searchTerm: string)
    ensures FilteredTemplates(templates, Lower(searchTerm)) == FilteredTemplates(templates, searchTerm)
  {
    LowerKeepsBlank(searchTerm);
    LowerIdempotent(searchTerm);
    Seqs.FilterCongruent(templates, SearchPredicate(Lower(searchTerm)), SearchPredicate(searchTerm));
  }

  /** A search for a category value finds every template of that category. */
  lemma SearchFindsCategory(templates: seq<Template>, category: string, i: nat)
    requires i < |templates| && templates[i].category == category
    ensures templates[i] in FilteredTemplates(templates, category)
  {
    LowerIdempotent(category);
    ContainsSelf(Lower(category));
  }

  lemma ContainsSelf(s: string)
    ensures Contains(s, s)
  {
    assert s[..|s|] == s;
  }

  function IsActive(t: Template): bool {
    t.isActive
  }

  /** `filteredTemplates.filter(t => t.isActive).length`. */
  function ActiveCount(templates: seq<Template>): (n: nat)
    ensures n <= |templates|
  {
    |Seqs.Filter(templates, IsActive)|
  }

  /** The count of a concatenation is the sum of the counts; one more template adds one exactly when it is active. */
  lemma ActiveCountConcat(a: seq<Template>, b: seq<Template>, t: Template)
    ensures ActiveCount(a + b) == ActiveCount(a) + ActiveCount(b)
    ensures ActiveCount(a + [t]) == ActiveCount(a) + (if t.isActive then 1 else 0)
  {
    Seqs.FilterConcat(a, b, IsActive);
    Seqs.FilterConcat(a, [t], IsActive);
  }

  /** The active count equals the shown count exactly when every shown template is active, and is zero exactly when none is. */
  lemma ActiveCountExtremes(templates: seq<Template>)
    ensures ActiveCount(templates) == |templates| <==> forall i :: 0 <= i < |templates| ==> templates[i].isActive
    ensures ActiveCount(templates) == 0 <==> forall i :: 0 <= i < |templates| ==> !templates[i].isActive
  {
    Seqs.FilterLengthIff(templates, IsActive);
    Seqs.FilterEmptyIff(templates, IsActive);
  }

  /** `handleStatusToggle(template, isActive)`: the patch `{ isActive }` handed to `updateTemplate(template.id, ...)`. */
  function StatusPatch(isActive: bool): (p: TemplatePatch)
    ensures p.isActive == Some(isActive)
    ensures p.(isActive := None) == NoTemplateChange
  {
    NoTemplateChange.(isActive := Some(isActive))
  }

  /** The status switch changes the status and the update time of the toggled template and nothing else anywhere. */
  lemma StatusToggleChangesOnlyStatus(templates: seq<Template>, t: Template, isActive: bool, now: string)
    ensures var r := DataContext.UpdateTemplates(templates, t.id, StatusPatch(isActive), now);
      |r| == |templates|
      && forall i :: 0 <= i < |templates| ==>
           r[i] == if templates[i].id == t.id then templates[i].(isActive := isActive, updatedAt := now) else templates[i]
  {
  }

  function HasValue(value: string): Constants.SelectOption -> bool {
    (o: Constants.SelectOption) => o.value == value
  }

  /** The category cell: the caption of the first category option with that value, or the raw value when there is none. */
  function CategoryLabel(category: string): (r: string)
    ensures !Constants.IsOptionValue(Constants.TEMPLATE_CATEGORIES, category) ==> r == category
    ensures Constants.IsOptionValue(Constants.TEMPLATE_CATEGORIES, category) ==>
      exists i :: 0 <= i < |Constants.TEMPLATE_CATEGORIES| && Constants.TEMPLATE_CATEGORIES[i].value == category
        && r == Constants.TEMPLATE_CATEGORIES[i].caption
  {
    var option := Seqs.FirstIndex(Constants.TEMPLATE_CATEGORIES, HasValue(category));
    if option.Some? && Constants.TEMPLATE_CATEGORIES[option.value].caption != "" then
      Constants.TEMPLATE_CATEGORIES[option.value].caption
    else category
  }
}
