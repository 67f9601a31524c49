/**
 * The character editor of src/pages/CharacterForm.tsx. The form holds the
 * values of the current language only; `handleSubmit` folds them into the
 * stored per-language record (`createMultiLangText` and the tags merge) and
 * either updates the loaded character or adds a new one.
 *
 * Both effects of the page depend on `currentLanguage`, so a language switch
 * re-runs them: in edit mode every field is projected again from the stored
 * character and unsaved edits are lost; in create mode the defaults are set
 * again while the typed texts stay in the form.
 */
module CharacterForm {
  import opened Wrappers
  import opened Types
  import Constants
  import DataContext
  import Persistence

  const LIST_PATH := "/characters"

  /** The toasts the page shows. */
  datatype Notice = NotFound | Updated | Created

  /** The form's fields; `None` is a field the form does not hold (`undefined`), and a list `None` is a non-array. */
  datatype Fields = Fields(
    avatar: Option<string>,
    gender: Option<Gender>,
    age: Option<int>,
    permission: Option<Permission>,
    nickname: Option<string>,
    region: Option<string>,
    profession: Option<string>,
    introduction: Option<string>,
    tags: Option<seq<string>>,
    greeting: Option<string>,
    displayImages: Option<seq<string>>,
    systemPrompt: Option<string>)

  /** A form nothing has been written to yet. */
  const NoFields := Fields(None, None, None, None, None, None, None, None, None, None, None, None)

  /** `v || ''` on a string field. */
  function OrEmpty(v: Option<string>): (r: string)
    ensures v.Some? ==> r == v.value
    ensures v.None? ==> r == ""
  {
    v.GetOr("")
  }

  /** `!!id`: the route supplies a non-empty id. */
  predicate IsEdit(id: Option<string>) {
    id.Some? && id.value != ""
  }

  /** An antd `required` text field: present and non-empty. */
  predicate Filled(v: Option<string>) {
    v.Some? && v.value != ""
  }

  /** The field rules antd checks before it calls `onFinish`: the required fields and the age range. */
  predicate Accepts(v: Fields)
    ensures Accepts(v) ==> v.avatar.Some? && v.gender.Some? && v.age.Some? && v.permission.Some?
    ensures Accepts(v) ==> Constants.AGE_MIN <= v.age.value <= Constants.AGE_MAX
    ensures Accepts(v) ==> OrEmpty(v.nickname) != "" && OrEmpty(v.systemPrompt) != ""
  {
    Filled(v.avatar) && v.gender.Some? && v.age.Some? && Constants.AgeAccepted(v.age.value) && v.permission.Some?
    && Constants.RuleHolds(Constants.NICKNAME_RULE, v.nickname) && Constants.RuleHolds(Constants.REGION_RULE, v.region)
    && Constants.RuleHolds(Constants.PROFESSION_RULE, v.profession)
    && Constants.RuleHolds(Constants.INTRODUCTION_RULE, v.introduction)
    && Constants.RuleHolds(Constants.GREETING_RULE, v.greeting)
    && Constants.RuleHolds(Constants.SYSTEM_PROMPT_RULE, v.systemPrompt)
  }

  /**
   * `createMultiLangText(currentValue, existing)`: the stored text, or three
   * empty strings, with the current language replaced by the form's value.
   */
  function CreateMultiLangText(lang: Lang, currentValue: Option<string>, existing: Option<MultiLangText>): (r: MultiLangText)
    ensures r.Get(lang) == OrEmpty(currentValue)
    ensures existing.Some? ==> forall m :: m != lang ==> r.Get(m) == existing.value.Get(m)
    ensures existing.None? ==> forall m :: m != lang ==> r.Get(m) == ""
  {
    existing.GetOr(EmptyText).Set(lang, OrEmpty(currentValue))
  }

  /** The tags merge: the stored lists, or three empty lists, with the current language replaced by the form's list (`[]` for a non-array). */
  function MergeTags(lang: Lang, current: Option<seq<string>>, existing: Option<Tags>): (r: Tags)
    ensures r.Get(lang) == current.GetOr([])
    ensures existing.Some? ==> forall m :: m != lang ==> r.Get(m) == existing.value.Get(m)
    ensures existing.None? ==> forall m :: m != lang ==> r.Get(m) == []
  {
    existing.GetOr(EmptyTags).Set(lang, current.GetOr([]))
  }

  /** `character?.<field>` for the per-language texts. */
  function StoredText(character: Option<Character>, select: Character -> MultiLangText): Option<MultiLangText> {
    if character.Some? then Some(select(character.value)) else None
  }

  function Nickname(c: Character): MultiLangText { c.nickname }
  function Region(c: Character): MultiLangText { c.region }
  function Profession(c: Character): MultiLangText { c.profession }
  function Introduction(c: Character): MultiLangText { c.introduction }
  function Greeting(c: Character): MultiLangText { c.greeting }

  /**
   * The `characterData` that `handleSubmit` builds from the submitted values
   * and the loaded character (if any). The required fields are present
   * because antd only calls `onFinish` once the rules pass.
   */
  function Payload(lang: Lang, v: Fields, character: Option<Character>): (d: CharacterData)
    requires v.avatar.Some? && v.gender.Some? && v.age.Some? && v.permission.Some?
    ensures d.avatar == v.avatar.value && d.gender == v.gender.value
    ensures d.age == v.age.value && d.permission == v.permission.value
    ensures d.displayImages == v.displayImages.GetOr([]) && d.systemPrompt == OrEmpty(v.systemPrompt)
    ensures d.whitelist == (if character.Some? then character.value.whitelist else [])
    ensures d.nickname.Get(lang) == OrEmpty(v.nickname) && d.region.Get(lang) == OrEmpty(v.region)
    ensures d.profession.Get(lang) == OrEmpty(v.profession) && d.introduction.Get(lang) == OrEmpty(v.introduction)
    ensures d.greeting.Get(lang) == OrEmpty(v.greeting) && d.tags.Get(lang) == v.tags.GetOr([])
  {
    CharacterData(
      v.avatar.value, v.gender.value, v.age.value, v.permission.value,
      CreateMultiLangText(lang, v.nickname, StoredText(character, Nickname)),
      CreateMultiLangText(lang, v.region, StoredText(character, Region)),
      CreateMultiLangText(lang, v.profession, StoredText(character, Profession)),
      CreateMultiLangText(lang, v.introduction, StoredText(character, Introduction)),
      MergeTags(lang, v.tags, if character.Some? then Some(character.value.tags) else None),
      CreateMultiLangText(lang, v.greeting, StoredText(character, Greeting)),
      v.displayImages.GetOr([]),
      OrEmpty(v.systemPrompt),
      if character.Some? then character.value.whitelist else [])
  }

  /** An edit submit keeps the stored text of every other language, in every per-language field. */
  lemma EditKeepsOtherLanguages(lang: Lang, v: Fields, c: Character, m: Lang)
    requires v.avatar.Some? && v.gender.Some? && v.age.Some? && v.permission.Some?
    requires m != lang
    ensures var d := Payload(lang, v, Some(c));
      d.nickname.Get(m) == c.nickname.Get(m) && d.region.Get(m) == c.region.Get(m)
      && d.profession.Get(m) == c.profession.Get(m) && d.introduction.Get(m) == c.introduction.Get(m)
      && d.greeting.Get(m) == c.greeting.Get(m) && d.tags.Get(m) == c.tags.Get(m)
  {
  }

  /** A create submit leaves every other language empty: `''` for the texts, `[]` for the tags, and no whitelist. */
  lemma CreateLeavesOtherLanguagesEmpty(lang: Lang, v: Fields, m: Lang)
    requires v.avatar.Some? && v.gender.Some? && v.age.Some? && v.permission.Some?
    requires m != lang
    ensures var d := Payload(lang, v, None);
      d.nickname.Get(m) == "" && d.region.Get(m) == "" && d.profession.Get(m) == ""
      && d.introduction.Get(m) == "" && d.greeting.Get(m) == "" && d.tags.Get(m) == [] && d.whitelist == []
  {
  }

  /** The edit-mode `setFieldsValue`: every field from the stored character, the texts and tags in `lang`. */
  function Project(c: Character, lang: Lang): (r: Fields)
    ensures r.avatar.Some? && r.gender.Some? && r.age.Some? && r.permission.Some?
    ensures r.displayImages == Some(c.displayImages) && r.systemPrompt == Some(c.systemPrompt)
    ensures OrEmpty(r.nickname) == c.nickname.Get(lang) && OrEmpty(r.greeting) == c.greeting.Get(lang)
    ensures r.tags == Some(c.tags.Get(lang))
  {
    Fields(Some(c.avatar), Some(c.gender), Some(c.age), Some(c.permission),
      Some(c.nickname.Get(lang)), Some(c.region.Get(lang)), Some(c.profession.Get(lang)),
      Some(c.introduction.Get(lang)), Some(c.tags.Get(lang)), Some(c.greeting.Get(lang)),
      Some(c.displayImages), Some(c.systemPrompt))
  }

  /** The language effect's `setFieldsValue`: the texts and tags of `lang` from the stored character. */
  function WithLanguage(v: Fields, c: Character, lang: Lang): (r: Fields)
    ensures r.avatar == v.avatar && r.gender == v.gender && r.age == v.age && r.permission == v.permission
    ensures r.displayImages == v.displayImages && r.systemPrompt == v.systemPrompt
    ensures OrEmpty(r.nickname) == c.nickname.Get(lang) && OrEmpty(r.region) == c.region.Get(lang)
    ensures OrEmpty(r.profession) == c.profession.Get(lang) && OrEmpty(r.introduction) == c.introduction.Get(lang)
    ensures OrEmpty(r.greeting) == c.greeting.Get(lang) && r.tags == Some(c.tags.Get(lang))
  {
    v.(nickname := Some(c.nickname.Get(lang)), region := Some(c.region.Get(lang)),
       profession := Some(c.profession.Get(lang)), introduction := Some(c.introduction.Get(lang)),
       tags := Some(c.tags.Get(lang)), greeting := Some(c.greeting.Get(lang)))
  }

  /** The create-mode `setFieldsValue`: the defaults, with the typed texts left alone. */
  function WithCreateDefaults(v: Fields): (r: Fields)
    ensures r.avatar == Some(Constants.DEFAULT_AVATAR) && r.gender == Some(Constants.DEFAULT_GENDER)
    ensures r.age == Some(Constants.DEFAULT_AGE) && r.permission == Some(Constants.DEFAULT_PERMISSION)
    ensures r.displayImages == Some([]) && r.tags == Some([])
    ensures r.nickname == v.nickname && r.region == v.region && r.profession == v.profession
    ensures r.introduction == v.introduction && r.greeting == v.greeting && r.systemPrompt == v.systemPrompt
  {
    v.(avatar := Some(Constants.DEFAULT_AVATAR), gender := Some(Constants.DEFAULT_GENDER),
       age := Some(Constants.DEFAULT_AGE), permission := Some(Constants.DEFAULT_PERMISSION),
       displayImages := Some([]), tags := Some([]))
  }

  /** Submitting the loaded record unedited reproduces its data exactly. */
  lemma UneditedSubmitReproducesRecord(c: Character, lang: Lang)
    ensures Payload(lang, Project(c, lang), Some(c)) == DataContext.CharacterDataOf(c)
  {
    var d := Payload(lang, Project(c, lang), Some(c));
    assert d.nickname == c.nickname.Set(lang, c.nickname.Get(lang));
    SetOwnValue(c.nickname, lang);
    SetOwnValue(c.region, lang);
    SetOwnValue(c.profession, lang);
    SetOwnValue(c.introduction, lang);
    SetOwnValue(c.greeting, lang);
    SetOwnValue(c.tags, lang);
  }

  lemma SetOwnValue<T>(p: PerLang<T>, lang: Lang)
    ensures p.Set(lang, p.Get(lang)) == p
  {
  }

  /** What the two effects leave: the loaded character, the form and whether the page gave up on an unknown id. */
  datatype View = View(character: Option<Character>, values: Fields, notFound: bool)

  /**
   * The two effects, in declaration order, given whether the page edits, what
   * `getCharacter(id)` returned, the state before and the current language.
   */
  function Effects(edit: bool, found: Option<Character>, character: Option<Character>, values: Fields, lang: Lang): (r: View)
    ensures edit && found.Some? ==> r.character == found && !r.notFound
    ensures edit && found.None? ==> r.notFound && r.character == character
    ensures !edit ==> !r.notFound && r.character == character
    ensures r.character.Some? ==> OrEmpty(r.values.nickname) == r.character.value.nickname.Get(lang)
  {
    var init :=
      if edit then
        if found.Some? then View(found, Project(found.value, lang), false)
        else View(character, values, true)
      else View(character, WithCreateDefaults(values), false);
    if init.character.Some? then init.(values := WithLanguage(init.values, init.character.value, lang))
    else init
  }

  /** In edit mode the form shows the stored record in the current language, whatever it held before: unsaved edits are lost. */
  lemma EditShowsStoredRecord(found: Character, character: Option<Character>, values: Fields, lang: Lang)
    ensures Effects(true, Some(found), character, values, lang) == View(Some(found), Project(found, lang), false)
  {
  }

  /** An unknown edit id leaves the form as it was and reports the missing record. */
  lemma UnknownIdLeavesFormAlone(character: Option<Character>, values: Fields, lang: Lang)
    requires character.None?
    ensures Effects(true, None, character, values, lang) == View(None, values, true)
  {
  }

  /** In create mode the defaults are set and the typed texts are kept, so they are submitted in the newly chosen language. */
  lemma CreateKeepsTypedTexts(values: Fields, lang: Lang)
    ensures var v := Effects(false, None, None, values, lang).values;
      v == WithCreateDefaults(values)
      && v.nickname == values.nickname && v.region == values.region && v.profession == values.profession
      && v.introduction == values.introduction && v.greeting == values.greeting && v.systemPrompt == values.systemPrompt
  {
  }

  /** `updateCharacter(character.id, characterData)`: the payload as a patch of the data fields. */
  function PatchOf(d: CharacterData): (p: CharacterPatch)
    ensures p.id.None? && p.botId.None? && p.createdAt.None? && p.updatedAt.None?
    ensures p.whitelist == Some(d.whitelist) && p.avatar == Some(d.avatar)
  {
    CharacterPatch(None, None, Some(d.avatar), Some(d.gender), Some(d.age), Some(d.permission),
      Some(d.nickname), Some(d.region), Some(d.profession), Some(d.introduction), Some(d.tags),
      Some(d.greeting), Some(d.displayImages), Some(d.systemPrompt), Some(d.whitelist), None, None)
  }

  /** Updating with a payload replaces the whole data part and keeps the id, bot id and creation time. */
  lemma PatchOfReplacesData(c: Character, d: CharacterData, now: string)
    ensures var r := DataContext.ApplyCharacterPatch(c, PatchOf(d), now);
      DataContext.CharacterDataOf(r) == d && r.id == c.id && r.botId == c.botId
      && r.createdAt == c.createdAt && r.updatedAt == now
  {
  }

  class CharacterFormPage {
    const store: DataContext.DataStore
    /** The route's `:id`, absent on `/characters/new`. */
    const id: Option<string>
    var currentLanguage: Lang
    var character: Option<Character>
    var values: Fields
    var notice: Option<Notice>
    /** Where the page navigated to; `None` while it is still shown. */
    var location: Option<string>

    /** A loaded character is the one the route names, and an edit page still on screen has one. */
    ghost predicate Valid()
      reads this
    {
      (character.Some? ==> IsEdit(id) && character.value.id == id.value)
      && (IsEdit(id) && location.None? ==> character.Some?)
    }

    /** `getCharacter(id)` in edit mode. */
    function Found(): Option<Character>
      reads this, store
    {
      if IsEdit(id) then store.GetCharacter(id.value) else None
    }

    /** Mounting the page: the initial state, then both effects. */
    constructor(store: DataContext.DataStore, id: Option<string>)
      ensures this.store == store && this.id == id && currentLanguage == Zh
      ensures View(character, values, notice == Some(NotFound)) == Effects(IsEdit(id), Found(), None, NoFields, Zh)
      ensures location == (if notice == Some(NotFound) then Some(LIST_PATH) else None)
      ensures Valid()
    {
      this.store := store;
      this.id := id;
      currentLanguage := Zh;
      character := None;
      values := NoFields;
      notice := None;
      location := None;
      new;
      RunEffects();
    }

    /** The initialisation effect followed by the language effect. */
    method RunEffects()
      requires character.Some? ==> IsEdit(id) && character.value.id == id.value
      modifies this
      ensures currentLanguage == old(currentLanguage)
      ensures var e := Effects(IsEdit(id), Found(), old(character), old(values), currentLanguage);
        character == e.character && values == e.values
        && notice == (if e.notFound then Some(NotFound) else old(notice))
        && location == (if e.notFound then Some(LIST_PATH) else old(location))
      ensures Valid()
    {
      if IsEdit(id) {
        var existing := store.GetCharacter(id.value);
        if existing.Some? {
          character := existing;
          values := Project(existing.value, currentLanguage);
        } else {
          notice := Some(NotFound);
          location := Some(LIST_PATH);
        }
      } else {
        values := WithCreateDefaults(values);
      }
      if character.Some? {
        values := WithLanguage(values, character.value, currentLanguage);
      }
    }

    /** The user edits the form. */
    method Edit(v: Fields)
      requires Valid()
      modifies this
      ensures values == v
      ensures currentLanguage == old(currentLanguage) && character == old(character)
      ensures notice == old(notice) && location == old(location)
      ensures Valid()
    {
      values := v;
    }

    /** Choosing a language tab: both effects run again for the new language. */
    method SwitchLanguage(lang: Lang)
      requires Valid()
      modifies this
      ensures currentLanguage == lang
      ensures var e := Effects(IsEdit(id), Found(), old(character), old(values), lang);
        character == e.character && values == e.values
        && notice == (if e.notFound then Some(NotFound) else old(notice))
        && location == (if e.notFound then Some(LIST_PATH) else old(location))
      ensures Valid()
    {
      currentLanguage := lang;
      RunEffects();
    }

    /**
     * `onFinish`: when the rules pass, build the payload, then update the
     * loaded character in edit mode or add a new one in create mode, and
     * return to the list. `newId`, `botSuffix` and the clock reads stand for
     * `nanoid()` and `new Date()` inside the store.
     */
    method Submit(newId: string, botSuffix: string, createdAt: string, updatedAt: string, now: string)
      requires Valid() && location.None?
      requires forall i :: 0 <= i < |store.characters| ==> store.characters[i].id != newId
      modifies this, store, store.storage
      ensures values == old(values) && character == old(character) && currentLanguage == old(currentLanguage)
      ensures store.templates == old(store.templates) && store.config == old(store.config)
      ensures !Accepts(values) ==>
        store.characters == old(store.characters) && store.storage.items == old(store.storage.items)
        && notice == old(notice) && location == old(location)
      ensures Accepts(values) && IsEdit(id) ==>
        store.characters == DataContext.UpdateCharacters(old(store.characters), id.value,
          PatchOf(Payload(currentLanguage, values, character)), now)
        && notice == Some(Updated)
      ensures Accepts(values) && !IsEdit(id) ==>
        store.characters == old(store.characters)
          + [DataContext.NewCharacter(Payload(currentLanguage, values, None), newId, botSuffix, createdAt, updatedAt)]
        && notice == Some(Created)
      ensures Accepts(values) ==>
        location == Some(LIST_PATH)
        && store.storage.items == old(store.storage.items)[Persistence.CHARACTERS_KEY :=
             store.codec.encode(Persistence.CharactersToJson(store.characters))]
      ensures Valid()
    {
      if !Accepts(values) {
        return;
      }
      var characterData := Payload(currentLanguage, values, character);
      if IsEdit(id) && character.Some? {
        store.UpdateCharacter(character.value.id, PatchOf(characterData), now);
        notice := Some(Updated);
      } else {
        store.AddCharacter(characterData, newId, botSuffix, createdAt, updatedAt);
        notice := Some(Created);
      }
      location := Some(LIST_PATH);
    }
  }
}
