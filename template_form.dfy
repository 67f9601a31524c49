/**
 * The template editor of src/pages/TemplateForm.tsx: the same shape as the
 * character editor, with three per-language texts, a category and an
 * active switch.
 *
 * As written its render reads `VALIDATION_RULES.MAX_LENGTH.TEMPLATE_NAME`,
 * but src/utils/constants.ts defines no `MAX_LENGTH` group: the read of a
 * field of `undefined` throws on the first render, before either effect
 * runs, on the create and the edit route alike. `MountAsWritten` records
 * that; `Mount` and the page class below model the form with the missing
 * limits supplied, checking no length since their values are not defined
 * anywhere.
 */
module TemplateForm {
  import opened Wrappers
  import opened Types
  import Constants
  import DataContext
  import Persistence
  import CharacterForm

  const LIST_PATH := "/templates"

  /** The form's fields; `None` is `undefined`. */
  datatype Fields = Fields(
    category: Option<string>,
    isActive: Option<bool>,
    name: Option<string>,
    description: Option<string>,
    content: Option<string>)

  const NoFields := Fields(None, None, None, None, None)

  /** The select and the switch hold a value once an effect has filled them. */
  predicate Complete(v: Fields) {
    v.category.Some? && v.isActive.Some?
  }

  /**
   * The rules of the `TEMPLATE` group: a non-empty name, and a non-empty
   * content of at most 15000 characters. The category and the description
   * have no rule of that group.
   */
  predicate Accepts(v: Fields)
    ensures Accepts(v) ==> CharacterForm.Filled(v.name) && CharacterForm.Filled(v.content)
    ensures Accepts(v) ==> |v.content.value| <= Constants.TEMPLATE_CONTENT_MAX
    ensures CharacterForm.Filled(v.name) && CharacterForm.Filled(v.content) && |v.content.value| <= Constants.TEMPLATE_CONTENT_MAX ==> Accepts(v)
  {
    Constants.RuleHolds(Constants.TEMPLATE_NAME_RULE, v.name) && Constants.RuleHolds(Constants.TEMPLATE_CONTENT_RULE, v.content)
  }

  /** The `templateData` of `handleSubmit`: exactly the category, the switch and the three merged texts. */
  function Payload(lang: Lang, v: Fields, template: Option<Template>): (d: TemplateData)
    requires Complete(v)
    ensures d.category == v.category.value && d.isActive == v.isActive.value
    ensures d.name.Get(lang) == CharacterForm.OrEmpty(v.name)
    ensures d.description.Get(lang) == CharacterForm.OrEmpty(v.description)
    ensures d.content.Get(lang) == CharacterForm.OrEmpty(v.content)
  {
    TemplateData(
      CharacterForm.CreateMultiLangText(lang, v.name, if template.Some? then Some(template.value.name) else None),
      CharacterForm.CreateMultiLangText(lang, v.description, if template.Some? then Some(template.value.description) else None),
      CharacterForm.CreateMultiLangText(lang, v.content, if template.Some? then Some(template.value.content) else None),
      v.category.value,
      v.isActive.value)
  }

  /** An edit submit keeps the stored text of every other language. */
  lemma EditKeepsOtherLanguages(lang: Lang, v: Fields, t: Template, m: Lang)
    requires Complete(v) && m != lang
    ensures var d := Payload(lang, v, Some(t));
      d.name.Get(m) == t.name.Get(m) && d.description.Get(m) == t.description.Get(m)
      && d.content.Get(m) == t.content.Get(m)
  {
  }

  /** A create submit leaves every other language empty. */
  lemma CreateLeavesOtherLanguagesEmpty(lang: Lang, v: Fields, m: Lang)
    requires Complete(v) && m != lang
    ensures var d := Payload(lang, v, None);
      d.name.Get(m) == "" && d.description.Get(m) == "" && d.content.Get(m) == ""
  {
  }

  /** The edit-mode `setFieldsValue`. */
  function Project(t: Template, lang: Lang): (r: Fields)
    ensures Complete(r) && r.category == Some(t.category) && r.isActive == Some(t.isActive)
    ensures CharacterForm.OrEmpty(r.name) == t.name.Get(lang) && CharacterForm.OrEmpty(r.content) == t.content.Get(lang)
  {
    Fields(Some(t.category), Some(t.isActive), Some(t.name.Get(lang)), Some(t.description.Get(lang)),
      Some(t.content.Get(lang)))
  }

  /** The language effect's `setFieldsValue`. */
  function WithLanguage(v: Fields, t: Template, lang: Lang): (r: Fields)
    ensures r.category == v.category && r.isActive == v.isActive
    ensures CharacterForm.OrEmpty(r.name) == t.name.Get(lang) && CharacterForm.OrEmpty(r.description) == t.description.Get(lang)
    ensures CharacterForm.OrEmpty(r.content) == t.content.Get(lang)
  {
    v.(name := Some(t.name.Get(lang)), description := Some(t.description.Get(lang)),
       content := Some(t.content.Get(lang)))
  }

  /** The create-mode `setFieldsValue`: category `'other'` and active. */
  function WithCreateDefaults(v: Fields): (r: Fields)
    ensures r.category == Some(Constants.DEFAULT_TEMPLATE_CATEGORY) && r.isActive == Some(true)
    ensures r.name == v.name && r.description == v.description && r.content == v.content
  {
    v.(category := Some(Constants.DEFAULT_TEMPLATE_CATEGORY), isActive := Some(Constants.DEFAULT_TEMPLATE_IS_ACTIVE))
  }

  /** Submitting the loaded template unedited reproduces its data exactly. */
  lemma UneditedSubmitReproducesRecord(t: Template, lang: Lang)
    ensures Payload(lang, Project(t, lang), Some(t)) == DataContext.TemplateDataOf(t)
  {
    CharacterForm.SetOwnValue(t.name, lang);
    CharacterForm.SetOwnValue(t.description, lang);
    CharacterForm.SetOwnValue(t.content, lang);
  }

  datatype View = View(template: Option<Template>, values: Fields, notFound: bool)

  /** The two effects, in declaration order. */
  function Effects(edit: bool, found: Option<Template>, template: Option<Template>, values: Fields, lang: Lang): (r: View)
    ensures edit && found.Some? ==> r.template == found && !r.notFound && Complete(r.values)
    ensures edit && found.None? ==> r.notFound && r.template == template
    ensures !edit ==> !r.notFound && r.template == template && Complete(r.values)
    ensures r.template.Some? ==> CharacterForm.OrEmpty(r.values.name) == r.template.value.name.Get(lang)
  {
    var init :=
      if edit then
        if found.Some? then View(found, Project(found.value, lang), false)
        else View(template, values, true)
      else View(template, WithCreateDefaults(values), false);
    if init.template.Some? then init.(values := WithLanguage(init.values, init.template.value, lang))
    else init
  }

  /** In edit mode the form shows the stored template in the current language, whatever it held before. */
  lemma EditShowsStoredRecord(found: Template, template: Option<Template>, values: Fields, lang: Lang)
    ensures Effects(true, Some(found), template, values, lang) == View(Some(found), Project(found, lang), false)
  {
  }

  /** In create mode the effects leave a complete form with the defaults and the typed texts. */
  lemma CreateFillsDefaults(values: Fields, lang: Lang)
    ensures var v := Effects(false, None, None, values, lang).values;
      Complete(v) && v.category == Some("other") && v.isActive == Some(true)
      && v.name == values.name && v.description == values.description && v.content == values.content
  {
  }

  /** What the route shows after mounting: the form after its effects, or nothing because the render threw. */
  datatype Screen = Shown(view: View) | RenderError

  /** Reading a field of `VALIDATION_RULES[group]` succeeds only for a group the constants define. */
  predicate RuleGroupDefined(group: string) {
    group in Constants.VALIDATION_RULE_GROUPS
  }

  /** The mount as written: the name field's rules read `VALIDATION_RULES.MAX_LENGTH` before any effect can run. */
  function MountAsWritten(edit: bool, found: Option<Template>): (s: Screen)
    ensures !RuleGroupDefined("MAX_LENGTH") ==> s == RenderError
    ensures RuleGroupDefined("MAX_LENGTH") ==> s == Mount(edit, found)
  {
    if RuleGroupDefined("MAX_LENGTH") then Mount(edit, found) else RenderError
  }

  /** The mount with the limits supplied: an edit of a stored template shows it, an unknown one is reported, a create fills the defaults. */
  function Mount(edit: bool, found: Option<Template>): (s: Screen)
    ensures s.Shown?
    ensures edit && found.Some? ==> s.view.template == found && !s.view.notFound
    ensures edit && found.None? ==> s.view.notFound && s.view.template.None?
    ensures !edit ==> !s.view.notFound && Complete(s.view.values)
  {
    Shown(Effects(edit, found, None, NoFields, Zh))
  }

  /** As written neither route ever shows the form, while the intended mount always does. */
  lemma AsWrittenNeverMounts(edit: bool, found: Option<Template>)
    ensures MountAsWritten(edit, found) == RenderError
    ensures Mount(edit, found).Shown?
  {
    assert "MAX_LENGTH" != Constants.VALIDATION_RULE_GROUPS[0];
  }

  /** `updateTemplate(template.id, templateData)`: the payload as a patch. */
  function PatchOf(d: TemplateData): (p: TemplatePatch)
    ensures p.id.None? && p.createdAt.None? && p.updatedAt.None?
    ensures p.isActive == Some(d.isActive) && p.category == Some(d.category)
  {
    TemplatePatch(None, Some(d.name), Some(d.description), Some(d.content), Some(d.category), Some(d.isActive), None, None)
  }

  /** Updating with a payload replaces the whole data part and keeps the id and creation time. */
  lemma PatchOfReplacesData(t: Template, d: TemplateData, now: string)
    ensures var r := DataContext.ApplyTemplatePatch(t, PatchOf(d), now);
      DataContext.TemplateDataOf(r) == d && r.id == t.id && r.createdAt == t.createdAt && r.updatedAt == now
  {
  }

  class TemplateFormPage {
    const store: DataContext.DataStore
    const id: Option<string>
    var currentLanguage: Lang
    var template: Option<Template>
    var values: Fields
    var notice: Option<CharacterForm.Notice>
    var location: Option<string>

    /** A loaded template is the one the route names, an edit page on screen has one, and a page on screen has a complete form. */
    ghost predicate Valid()
      reads this
    {
      (template.Some? ==> CharacterForm.IsEdit(id) && template.value.id == id.value)
      && (CharacterForm.IsEdit(id) && location.None? ==> template.Some?)
      && (location.None? ==> Complete(values))
    }

    function Found(): Option<Template>
      reads this, store
    {
      if CharacterForm.IsEdit(id) then store.GetTemplate(id.value) else None
    }

    constructor(store: DataContext.DataStore, id: Option<string>)
      ensures this.store == store && this.id == id && currentLanguage == Zh
      ensures Mount(CharacterForm.IsEdit(id), Found()) == Shown(View(template, values, notice == Some(CharacterForm.NotFound)))
      ensures location == (if notice == Some(CharacterForm.NotFound) then Some(LIST_PATH) else None)
      ensures Valid()
    {
      this.store := store;
      this.id := id;
      currentLanguage := Zh;
      template := None;
      values := NoFields;
      notice := None;
      location := None;
      new;
      RunEffects();
    }

    /** The initialisation effect followed by the language effect. */
    method RunEffects()
      requires template.Some? ==> CharacterForm.IsEdit(id) && template.value.id == id.value
      modifies this
      ensures currentLanguage == old(currentLanguage)
      ensures var e := Effects(CharacterForm.IsEdit(id), Found(), old(template), old(values), currentLanguage);
        template == e.template && values == e.values
        && notice == (if e.notFound then Some(CharacterForm.NotFound) else old(notice))
        && location == (if e.notFound then Some(LIST_PATH) else old(location))
      ensures Valid()
    {
      if CharacterForm.IsEdit(id) {
        var existing := store.GetTemplate(id.value);
        if existing.Some? {
          template := existing;
          values := Project(existing.value, currentLanguage);
        } else {
          notice := Some(CharacterForm.NotFound);
          location := Some(LIST_PATH);
        }
      } else {
        values := WithCreateDefaults(values);
      }
      if template.Some? {
        values := WithLanguage(values, template.value, currentLanguage);
      }
    }

    /** The user edits the form; the select and the switch cannot be emptied. */
    method Edit(v: Fields)
      requires Valid() && Complete(v)
      modifies this
      ensures values == v
      ensures currentLanguage == old(currentLanguage) && template == old(template)
      ensures notice == old(notice) && location == old(location)
      ensures Valid()
    {
      values := v;
    }

    /** Choosing a language tab: both effects run again for the new language. */
    method SwitchLanguage(lang: Lang)
      requires Valid()
      modifies this
      ensures currentLanguage == lang
      ensures var e := Effects(CharacterForm.IsEdit(id), Found(), old(template), old(values), lang);
        template == e.template && values == e.values
        && notice == (if e.notFound then Some(CharacterForm.NotFound) else old(notice))
        && location == (if e.notFound then Some(LIST_PATH) else old(location))
      ensures Valid()
    {
      currentLanguage := lang;
      RunEffects();
    }

    /**
     * `onFinish`: when the rules pass, update the loaded template in edit
     * mode or add one in create mode, then return to the list.
     */
    method Submit(newId: string, createdAt: string, updatedAt: string, now: string)
      requires Valid() && location.None?
      requires forall i :: 0 <= i < |store.templates| ==> store.templates[i].id != newId
      modifies this, store, store.storage
      ensures values == old(values) && template == old(template) && currentLanguage == old(currentLanguage)
      ensures store.characters == old(store.characters) && store.config == old(store.config)
      ensures !Accepts(values) ==>
        store.templates == old(store.templates) && store.storage.items == old(store.storage.items)
        && notice == old(notice) && location == old(location)
      ensures Accepts(values) && CharacterForm.IsEdit(id) ==>
        store.templates == DataContext.UpdateTemplates(old(store.templates), id.value,
          PatchOf(Payload(currentLanguage, values, template)), now)
        && notice == Some(CharacterForm.Updated)
      ensures Accepts(values) && !CharacterForm.IsEdit(id) ==>
        store.templates == old(store.templates)
          + [DataContext.NewTemplate(Payload(currentLanguage, values, None), newId, createdAt, updatedAt)]
        && notice == Some(CharacterForm.Created)
      ensures Accepts(values) ==>
        location == Some(LIST_PATH)
        && store.storage.items == old(store.storage.items)[Persistence.TEMPLATES_KEY :=
             store.codec.encode(Persistence.TemplatesToJson(store.templates))]
      ensures Valid()
    {
      if !Accepts(values) {
        return;
      }
      var templateData := Payload(currentLanguage, values, template);
      if CharacterForm.IsEdit(id) && template.Some? {
        store.UpdateTemplate(template.value.id, PatchOf(templateData), now);
        notice := Some(CharacterForm.Updated);
      } else {
        store.AddTemplate(templateData, newId, createdAt, updatedAt);
        notice := Some(CharacterForm.Created);
      }
      location := Some(LIST_PATH);
    }
  }
}
