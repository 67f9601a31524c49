/**
 * The persistence adapter of src/contexts/DataContext.tsx: the storage keys,
 * the JSON form of the stored records, the shape validators, the guarded
 * read `safeGetFromStorage` and the one-off version cleanup.
 *
 * The store keeps typed records. A value read back from storage becomes a
 * typed collection through the `...FromJson` decoders; a value that passes
 * the shape validator but is not a complete record has no typed form and the
 * seed is used instead (see README).
 */
module Persistence {
  import opened Wrappers
  import opened Json
  import opened Types
  import Storage

  const CHARACTERS_KEY := "demo_characters"
  const TEMPLATES_KEY := "demo_templates"
  const CONFIG_KEY := "demo_config"
  const VERSION_KEY := "demo_data_version"
  const CLEANUP_VERSION := "1.0.0"

  // ---------------------------------------------------------------------
  // The JSON form of records, as `JSON.stringify` sees them

  /** A JSON array holding the elements of `xs`, each written by `enc`. */
  function ListToJson<T>(xs: seq<T>, enc: T -> Json): (j: Json)
    ensures j.JArr? && |j.items| == |xs|
  {
    JArr(seq(|xs|, i requires 0 <= i < |xs| => enc(xs[i])))
  }

  function StrToJson(s: string): Json {
    JStr(s)
  }

  function StringsToJson(xs: seq<string>): Json {
    ListToJson(xs, StrToJson)
  }

  /** The elements of a JSON array read by `f`; `None` if `f` cannot read one of them. */
  function ListFromJson<T>(items: seq<Json>, f: Json -> Option<T>): (r: Option<seq<T>>)
    ensures r.Some? ==> |r.value| == |items|
  {
    if items == [] then Some([])
    else match (f(items[0]), ListFromJson(items[1..], f))
      case (Some(x), Some(rest)) => Some([x] + rest)
      case _ => None
  }

  /** Reading back a written list gives the list, for any element codec that reads back what it writes. */
  lemma {:induction false} ListRoundTrip<T>(xs: seq<T>, enc: T -> Json, dec: Json -> Option<T>)
    requires forall x :: dec(enc(x)) == Some(x)
    ensures ListFromJson(ListToJson(xs, enc).items, dec) == Some(xs)
  {
    var items := ListToJson(xs, enc).items;
    if xs != [] {
      assert items[0] == enc(xs[0]);
      assert items[1..] == ListToJson(xs[1..], enc).items;
      ListRoundTrip(xs[1..], enc, dec);
      assert xs == [xs[0]] + xs[1..];
    }
  }

  function StrOf(j: Json): Option<string> {
    if j.JStr? then Some(j.s) else None
  }

  /** Reading back a written list of strings gives the list. */
  lemma StringsRoundTrip(xs: seq<string>)
    ensures ListFromJson(StringsToJson(xs).items, StrOf) == Some(xs)
  {
    ListRoundTrip(xs, StrToJson, StrOf);
  }

  function PerLangToJson<T>(v: PerLang<T>, f: T -> Json): Json {
    JObj(map["zh" := f(v.zh), "en" := f(v.en), "ar" := f(v.ar)])
  }

  function StrsOf(j: Json): Option<seq<string>> {
    if j.JArr? then ListFromJson(j.items, StrOf) else None
  }

  function TextToJson(t: MultiLangText): Json {
    PerLangToJson(t, s => JStr(s))
  }

  function TagsToJson(t: Tags): Json {
    PerLangToJson(t, StringsToJson)
  }

  /** A `{zh, en, ar}` object whose three members `f` can read. */
  function PerLangFromJson<T>(j: Json, f: Json -> Option<T>): Option<PerLang<T>> {
    match (Member(j, "zh"), Member(j, "en"), Member(j, "ar"))
    case (Some(zh), Some(en), Some(ar)) =>
      if f(zh).Some? && f(en).Some? && f(ar).Some? then Some(PerLang(f(zh).value, f(en).value, f(ar).value)) else None
    case _ => None
  }

  function GenderOf(j: Json): Option<Gender> {
    if j == JStr("male") then Some(Male)
    else if j == JStr("female") then Some(Female)
    else if j == JStr("other") then Some(Other)
    else None
  }

  function PermissionOf(j: Json): Option<Permission> {
    if j == JStr("public") then Some(Public)
    else if j == JStr("private") then Some(Private)
    else None
  }

  function IntOf(j: Json): Option<int> {
    if j.JNum? then Some(j.n) else None
  }

  function BoolOf(j: Json): Option<bool> {
    if j.JBool? then Some(j.b) else None
  }

  /** Member `key` of `j`, read by `f`. */
  function Field<T>(j: Json, key: string, f: Json -> Option<T>): Option<T> {
    match Member(j, key)
    case None => None
    case Some(v) => f(v)
  }

  function TextField(j: Json, key: string): Option<MultiLangText> {
    Field(j, key, v => PerLangFromJson(v, StrOf))
  }

  function TagsField(j: Json, key: string): Option<Tags> {
    Field(j, key, v => PerLangFromJson(v, StrsOf))
  }

  function CharacterToJson(c: Character): Json {
    JObj(map[
      "id" := JStr(c.id),
      "botId" := JStr(c.botId),
      "avatar" := JStr(c.avatar),
      "gender" := JStr(c.gender.Key()),
      "age" := JNum(c.age),
      "permission" := JStr(c.permission.Key()),
      "nickname" := TextToJson(c.nickname),
      "region" := TextToJson(c.region),
      "profession" := TextToJson(c.profession),
      "introduction" := TextToJson(c.introduction),
      "tags" := TagsToJson(c.tags),
      "greeting" := TextToJson(c.greeting),
      "displayImages" := StringsToJson(c.displayImages),
      "systemPrompt" := JStr(c.systemPrompt),
      "whitelist" := StringsToJson(c.whitelist),
      "createdAt" := JStr(c.createdAt),
      "updatedAt" := JStr(c.updatedAt)])
  }

  /** The character a stored object describes, when it has every field with the right type. */
  function CharacterFromJson(j: Json): Option<Character> {
    var id := Field(j, "id", StrOf);
    var botId := Field(j, "botId", StrOf);
    var avatar := Field(j, "avatar", StrOf);
    var gender := Field(j, "gender", GenderOf);
    var age := Field(j, "age", IntOf);
    var permission := Field(j, "permission", PermissionOf);
    var nickname := TextField(j, "nickname");
    var region := TextField(j, "region");
    var profession := TextField(j, "profession");
    var introduction := TextField(j, "introduction");
    var tags := TagsField(j, "tags");
    var greeting := TextField(j, "greeting");
    var displayImages := Field(j, "displayImages", StrsOf);
    var systemPrompt := Field(j, "systemPrompt", StrOf);
    var whitelist := Field(j, "whitelist", StrsOf);
    var createdAt := Field(j, "createdAt", StrOf);
    var updatedAt := Field(j, "updatedAt", StrOf);
    if id.Some? && botId.Some? && avatar.Some? && gender.Some? && age.Some? && permission.Some?
      && nickname.Some? && region.Some? && profession.Some? && introduction.Some? && tags.Some?
      && greeting.Some? && displayImages.Some? && systemPrompt.Some? && whitelist.Some?
      && createdAt.Some? && updatedAt.Some?
    then
      Some(Character(id.value, botId.value, avatar.value, gender.value, age.value, permission.value,
        nickname.value, region.value, profession.value, introduction.value, tags.value, greeting.value,
        displayImages.value, systemPrompt.value, whitelist.value, createdAt.value, updatedAt.value))
    else None
  }

  function TemplateToJson(t: Template): Json {
    JObj(map[
      "id" := JStr(t.id),
      "name" := TextToJson(t.name),
      "description" := TextToJson(t.description),
      "content" := TextToJson(t.content),
      "category" := JStr(t.category),
      "isActive" := JBool(t.isActive),
      "createdAt" := JStr(t.createdAt),
      "updatedAt" := JStr(t.updatedAt)])
  }

  /** The template a stored object describes, when it has every field with the right type. */
  function TemplateFromJson(j: Json): Option<Template> {
    var id := Field(j, "id", StrOf);
    var name := TextField(j, "name");
    var description := TextField(j, "description");
    var content := TextField(j, "content");
    var category := Field(j, "category", StrOf);
    var isActive := Field(j, "isActive", BoolOf);
    var createdAt := Field(j, "createdAt", StrOf);
    var updatedAt := Field(j, "updatedAt", StrOf);
    if id.Some? && name.Some? && description.Some? && content.Some? && category.Some?
      && isActive.Some? && createdAt.Some? && updatedAt.Some?
    then
      Some(Template(id.value, name.value, description.value, content.value, category.value,
        isActive.value, createdAt.value, updatedAt.value))
    else None
  }

  function ConfigToJson(c: Config): Json {
    JObj(map["defaultAvatars" := StringsToJson(c.defaultAvatars)])
  }

  function ConfigFromJson(j: Json): Option<Config> {
    match Field(j, "defaultAvatars", StrsOf)
    case None => None
    case Some(avatars) => Some(Config(avatars))
  }

  /** Reading back a written text gives the text. */
  lemma TextRoundTrip(t: MultiLangText)
    ensures PerLangFromJson(TextToJson(t), StrOf) == Some(t)
  {
  }

  lemma TagsRoundTrip(t: Tags)
    ensures PerLangFromJson(TagsToJson(t), StrsOf) == Some(t)
  {
    StringsRoundTrip(t.zh);
    StringsRoundTrip(t.en);
    StringsRoundTrip(t.ar);
  }

  /** Members `id`, `botId`, `avatar` of a written character. */
  lemma CharacterMembers1(c: Character)
    ensures Member(CharacterToJson(c), "id") == Some(JStr(c.id))
    ensures Member(CharacterToJson(c), "botId") == Some(JStr(c.botId))
    ensures Member(CharacterToJson(c), "avatar") == Some(JStr(c.avatar))
  {
  }

  /** Members `gender`, `age`, `permission` of a written character. */
  lemma CharacterMembers2(c: Character)
    ensures Member(CharacterToJson(c), "gender") == Some(JStr(c.gender.Key()))
    ensures Member(CharacterToJson(c), "age") == Some(JNum(c.age))
    ensures Member(CharacterToJson(c), "permission") == Some(JStr(c.permission.Key()))
  {
  }

  /** Members `nickname`, `region`, `profession` of a written character. */
  lemma CharacterMembers3(c: Character)
    ensures Member(CharacterToJson(c), "nickname") == Some(TextToJson(c.nickname))
    ensures Member(CharacterToJson(c), "region") == Some(TextToJson(c.region))
    ensures Member(CharacterToJson(c), "profession") == Some(TextToJson(c.profession))
  {
  }

  /** Members `introduction`, `tags`, `greeting` of a written character. */
  lemma CharacterMembers4(c: Character)
    ensures Member(CharacterToJson(c), "introduction") == Some(TextToJson(c.introduction))
    ensures Member(CharacterToJson(c), "tags") == Some(TagsToJson(c.tags))
    ensures Member(CharacterToJson(c), "greeting") == Some(TextToJson(c.greeting))
  {
  }

  /** Members `displayImages`, `systemPrompt`, `whitelist` of a written character. */
  lemma CharacterMembers5(c: Character)
    ensures Member(CharacterToJson(c), "displayImages") == Some(StringsToJson(c.displayImages))
    ensures Member(CharacterToJson(c), "systemPrompt") == Some(JStr(c.systemPrompt))
    ensures Member(CharacterToJson(c), "whitelist") == Some(StringsToJson(c.whitelist))
  {
  }

  /** Members `createdAt`, `updatedAt` of a written character. */
  lemma CharacterMembers6(c: Character)
    ensures Member(CharacterToJson(c), "createdAt") == Some(JStr(c.createdAt))
    ensures Member(CharacterToJson(c), "updatedAt") == Some(JStr(c.updatedAt))
  {
  }

  /** The scalars of `c`, read back from an object holding them as written. */
  lemma CharacterReadScalars(j: Json, c: Character)
    requires Member(j, "id") == Some(JStr(c.id))
    requires Member(j, "botId") == Some(JStr(c.botId))
    requires Member(j, "avatar") == Some(JStr(c.avatar))
    requires Member(j, "gender") == Some(JStr(c.gender.Key()))
    requires Member(j, "age") == Some(JNum(c.age))
    requires Member(j, "permission") == Some(JStr(c.permission.Key()))
    ensures Field(j, "id", StrOf) == Some(c.id)
    ensures Field(j, "botId", StrOf) == Some(c.botId)
    ensures Field(j, "avatar", StrOf) == Some(c.avatar)
    ensures Field(j, "gender", GenderOf) == Some(c.gender)
    ensures Field(j, "age", IntOf) == Some(c.age)
    ensures Field(j, "permission", PermissionOf) == Some(c.permission)
  {
    assert GenderOf(JStr(c.gender.Key())) == Some(c.gender);
    assert PermissionOf(JStr(c.permission.Key())) == Some(c.permission);
  }

  /** The texts of `c`, read back from an object holding them as written. */
  lemma CharacterReadTexts(j: Json, c: Character)
    requires Member(j, "nickname") == Some(TextToJson(c.nickname))
    requires Member(j, "region") == Some(TextToJson(c.region))
    requires Member(j, "profession") == Some(TextToJson(c.profession))
    requires Member(j, "introduction") == Some(TextToJson(c.introduction))
    requires Member(j, "tags") == Some(TagsToJson(c.tags))
    requires Member(j, "greeting") == Some(TextToJson(c.greeting))
    ensures TextField(j, "nickname") == Some(c.nickname)
    ensures TextField(j, "region") == Some(c.region)
    ensures TextField(j, "profession") == Some(c.profession)
    ensures TextField(j, "introduction") == Some(c.introduction)
    ensures TagsField(j, "tags") == Some(c.tags)
    ensures TextField(j, "greeting") == Some(c.greeting)
  {
    TextRoundTrip(c.nickname);
    TextRoundTrip(c.region);
    TextRoundTrip(c.profession);
    TextRoundTrip(c.introduction);
    TagsRoundTrip(c.tags);
    TextRoundTrip(c.greeting);
  }

  /** The lists of `c`, read back from an object holding them as written. */
  lemma CharacterReadLists(j: Json, c: Character)
    requires Member(j, "displayImages") == Some(StringsToJson(c.displayImages))
    requires Member(j, "systemPrompt") == Some(JStr(c.systemPrompt))
    requires Member(j, "whitelist") == Some(StringsToJson(c.whitelist))
    requires Member(j, "createdAt") == Some(JStr(c.createdAt))
    requires Member(j, "updatedAt") == Some(JStr(c.updatedAt))
    ensures Field(j, "displayImages", StrsOf) == Some(c.displayImages)
    ensures Field(j, "systemPrompt", StrOf) == Some(c.systemPrompt)
    ensures Field(j, "whitelist", StrsOf) == Some(c.whitelist)
    ensures Field(j, "createdAt", StrOf) == Some(c.createdAt)
    ensures Field(j, "updatedAt", StrOf) == Some(c.updatedAt)
  {
    StringsRoundTrip(c.displayImages);
    StringsRoundTrip(c.whitelist);
  }

  /** An object from which every field of `c` reads back is read as `c`. */
  lemma CharacterFromFields(j: Json, c: Character)
    requires Field(j, "id", StrOf) == Some(c.id)
    requires Field(j, "botId", StrOf) == Some(c.botId)
    requires Field(j, "avatar", StrOf) == Some(c.avatar)
    requires Field(j, "gender", GenderOf) == Some(c.gender)
    requires Field(j, "age", IntOf) == Some(c.age)
    requires Field(j, "permission", PermissionOf) == Some(c.permission)
    requires TextField(j, "nickname") == Some(c.nickname)
    requires TextField(j, "region") == Some(c.region)
    requires TextField(j, "profession") == Some(c.profession)
    requires TextField(j, "introduction") == Some(c.introduction)
    requires TagsField(j, "tags") == Some(c.tags)
    requires TextField(j, "greeting") == Some(c.greeting)
    requires Field(j, "displayImages", StrsOf) == Some(c.displayImages)
    requires Field(j, "systemPrompt", StrOf) == Some(c.systemPrompt)
    requires Field(j, "whitelist", StrsOf) == Some(c.whitelist)
    requires Field(j, "createdAt", StrOf) == Some(c.createdAt)
    requires Field(j, "updatedAt", StrOf) == Some(c.updatedAt)
    ensures CharacterFromJson(j) == Some(c)
  {
  }

  /** Reading back a written character gives the character. */
  lemma CharacterRoundTrip(c: Character)
    ensures CharacterFromJson(CharacterToJson(c)) == Some(c)
  {
    var j := CharacterToJson(c);
    CharacterMembers1(c);
    CharacterMembers2(c);
    CharacterMembers3(c);
    CharacterMembers4(c);
    CharacterMembers5(c);
    CharacterMembers6(c);
    CharacterReadScalars(j, c);
    CharacterReadTexts(j, c);
    CharacterReadLists(j, c);
    CharacterFromFields(j, c);
  }

  /** Reading back a written template gives the template. */
  lemma TemplateRoundTrip(t: Template)
    ensures TemplateFromJson(TemplateToJson(t)) == Some(t)
  {
    TextRoundTrip(t.name);
    TextRoundTrip(t.description);
    TextRoundTrip(t.content);
  }

  lemma ConfigRoundTrip(c: Config)
    ensures ConfigFromJson(ConfigToJson(c)) == Some(c)
  {
    StringsRoundTrip(c.defaultAvatars);
  }

  // ---------------------------------------------------------------------
  // Whole collections

  function CharactersToJson(cs: seq<Character>): Json {
    ListToJson(cs, CharacterToJson)
  }

  function CharactersFromJson(j: Json): Option<seq<Character>> {
    if j.JArr? then ListFromJson(j.items, CharacterFromJson) else None
  }

  function TemplatesToJson(ts: seq<Template>): Json {
    ListToJson(ts, TemplateToJson)
  }

  function TemplatesFromJson(j: Json): Option<seq<Template>> {
    if j.JArr? then ListFromJson(j.items, TemplateFromJson) else None
  }

  /** Reading back a written character collection gives the collection. */
  lemma CharactersRoundTrip(cs: seq<Character>)
    ensures CharactersFromJson(CharactersToJson(cs)) == Some(cs)
  {
    forall c: Character ensures CharacterFromJson(CharacterToJson(c)) == Some(c) {
      CharacterRoundTrip(c);
    }
    ListRoundTrip(cs, CharacterToJson, CharacterFromJson);
  }

  /** Reading back a written template collection gives the collection. */
  lemma TemplatesRoundTrip(ts: seq<Template>)
    ensures TemplatesFromJson(TemplatesToJson(ts)) == Some(ts)
  {
    forall t: Template ensures TemplateFromJson(TemplateToJson(t)) == Some(t) {
      TemplateRoundTrip(t);
    }
    ListRoundTrip(ts, TemplateToJson, TemplateFromJson);
  }

  // ---------------------------------------------------------------------
  // Shape validators

  /** `item && typeof item === 'object'`: a non-null object or an array. */
  predicate IsObjectLike(item: Json) {
    Truthy(item) && TypeOf(Some(item)) == "object"
  }

  predicate IsCharacterShaped(item: Json) {
    IsObjectLike(item) && TypeOf(Member(item, "id")) == "string" && TypeOf(Member(item, "botId")) == "string"
  }

  predicate IsTemplateShaped(item: Json) {
    IsObjectLike(item) && TypeOf(Member(item, "id")) == "string" && TypeOf(Member(item, "name")) == "object"
  }

  /** `isValidCharactersArray`. */
  predicate IsValidCharactersArray(data: Json)
    ensures IsValidCharactersArray(data) ==> data.JArr?
    ensures data == JArr([]) ==> IsValidCharactersArray(data)
  {
    IsArray(Some(data)) && forall i :: 0 <= i < |data.items| ==> IsCharacterShaped(data.items[i])
  }

  /** `isValidTemplatesArray`. */
  predicate IsValidTemplatesArray(data: Json)
    ensures IsValidTemplatesArray(data) ==> data.JArr?
    ensures data == JArr([]) ==> IsValidTemplatesArray(data)
  {
    IsArray(Some(data)) && forall i :: 0 <= i < |data.items| ==> IsTemplateShaped(data.items[i])
  }

  /** `isValidConfig`. */
  predicate IsValidConfig(data: Json)
    ensures IsValidConfig(data) ==> data.JObj? && "defaultAvatars" in data.fields
  {
    IsObjectLike(data) && IsArray(Member(data, "defaultAvatars"))
  }

  /**
   * The characters validator accepts exactly the arrays whose every element
   * is a non-null object holding a string `id` and a string `botId`; in
   * particular it accepts the empty array.
   */
  lemma CharactersValidatorExactly(data: Json)
    ensures IsValidCharactersArray(data) <==>
      data.JArr? && forall i :: 0 <= i < |data.items| ==>
        data.items[i].JObj? && "id" in data.items[i].fields && data.items[i].fields["id"].JStr?
        && "botId" in data.items[i].fields && data.items[i].fields["botId"].JStr?
    ensures IsValidCharactersArray(JArr([]))
  {
    if data.JArr? {
      forall i | 0 <= i < |data.items|
        ensures IsCharacterShaped(data.items[i]) <==>
          data.items[i].JObj? && "id" in data.items[i].fields && data.items[i].fields["id"].JStr?
          && "botId" in data.items[i].fields && data.items[i].fields["botId"].JStr?
      {
        var item := data.items[i];
        if item.JObj? {
          assert TypeOf(Member(item, "id")) == "string" <==> "id" in item.fields && item.fields["id"].JStr?;
          assert TypeOf(Member(item, "botId")) == "string" <==> "botId" in item.fields && item.fields["botId"].JStr?;
        }
      }
    }
  }

  /**
   * The templates validator needs a string `id` and a `name` of type
   * "object", which `null` and arrays also have.
   */
  lemma TemplatesValidatorExactly(data: Json)
    ensures IsValidTemplatesArray(data) <==>
      data.JArr? && forall i :: 0 <= i < |data.items| ==>
        data.items[i].JObj? && "id" in data.items[i].fields && data.items[i].fields["id"].JStr?
        && "name" in data.items[i].fields
        && (data.items[i].fields["name"].JNull? || data.items[i].fields["name"].JArr? || data.items[i].fields["name"].JObj?)
    ensures IsValidTemplatesArray(JArr([JObj(map["id" := JStr(""), "name" := JNull])]))
  {
    if data.JArr? {
      forall i | 0 <= i < |data.items|
        ensures IsTemplateShaped(data.items[i]) <==>
          data.items[i].JObj? && "id" in data.items[i].fields && data.items[i].fields["id"].JStr?
          && "name" in data.items[i].fields
          && (data.items[i].fields["name"].JNull? || data.items[i].fields["name"].JArr? || data.items[i].fields["name"].JObj?)
      {
        var item := data.items[i];
        if item.JObj? {
          assert TypeOf(Member(item, "id")) == "string" <==> "id" in item.fields && item.fields["id"].JStr?;
        }
      }
    }
    var w := JObj(map["id" := JStr(""), "name" := JNull]);
    assert Member(w, "id") == Some(JStr("")) && Member(w, "name") == Some(JNull);
    assert IsTemplateShaped(JArr([w]).items[0]);
  }

  /** The config validator accepts exactly the objects whose `defaultAvatars` is an array. */
  lemma ConfigValidatorExactly(data: Json)
    ensures IsValidConfig(data) <==> data.JObj? && "defaultAvatars" in data.fields && data.fields["defaultAvatars"].JArr?
  {
  }

  /** Every written character collection passes the characters validator. */
  lemma WrittenCharactersAreValid(cs: seq<Character>)
    ensures IsValidCharactersArray(CharactersToJson(cs))
  {
    forall i | 0 <= i < |cs| ensures IsCharacterShaped(CharactersToJson(cs).items[i]) {
      CharacterMembers1(cs[i]);
    }
  }

  /** Every written template collection passes the templates validator. */
  lemma WrittenTemplatesAreValid(ts: seq<Template>)
    ensures IsValidTemplatesArray(TemplatesToJson(ts))
  {
    forall i | 0 <= i < |ts| ensures IsTemplateShaped(TemplatesToJson(ts).items[i]) {
      assert TemplatesToJson(ts).items[i] == TemplateToJson(ts[i]);
      assert Member(TemplateToJson(ts[i]), "name") == Some(TextToJson(ts[i].name));
    }
  }

  /** Every written collection and configuration passes its validator. */
  lemma WrittenValuesAreValid(cs: seq<Character>, ts: seq<Template>, config: Config)
    ensures IsValidCharactersArray(CharactersToJson(cs))
    ensures IsValidTemplatesArray(TemplatesToJson(ts))
    ensures IsValidConfig(ConfigToJson(config))
  {
    WrittenCharactersAreValid(cs);
    WrittenTemplatesAreValid(ts);
  }

  // ---------------------------------------------------------------------
  // safeGetFromStorage

  /** The stored string is present, non-empty, parses, and the parsed value passes the validator (if any). */
  predicate StoredValueAccepted(saved: Option<string>, validator: Option<Json -> bool>, codec: Codec) {
    saved.Some? && saved.value != "" && codec.decode(saved.value).Some?
    && (validator.None? || validator.value(codec.decode(saved.value).value))
  }

  /**
   * `safeGetFromStorage(key, defaultValue, validator)` given what
   * `getItem(key)` returned: the parsed value when it is accepted, the default
   * otherwise. It never throws: a parse failure is the decoder's `None`.
   */
  function SafeGet(saved: Option<string>, default: Json, validator: Option<Json -> bool>, codec: Codec): (r: Json)
    ensures StoredValueAccepted(saved, validator, codec) ==> Some(r) == codec.decode(saved.value)
    ensures !StoredValueAccepted(saved, validator, codec) ==> r == default
  {
    if saved.None? || saved.value == "" then default
    else match codec.decode(saved.value)
      case None => default
      case Some(parsed) =>
        if validator.Some? && !validator.value(parsed) then default else parsed
  }

  /** With a faithful codec, reading what was saved gives it back whenever the validator accepts it. */
  lemma SafeGetAfterSave(j: Json, default: Json, validator: Json -> bool, codec: Codec)
    requires codec.Faithful() && validator(j)
    ensures SafeGet(Some(codec.encode(j)), default, Some(validator), codec) == j
  {
    assert codec.decode(codec.encode(j)) == Some(j);
    assert codec.encode(j) != "";
  }

  /** The initial `characters` state: the stored collection if it is accepted and complete, the seed otherwise. */
  function LoadCharacters(items: map<string, string>, codec: Codec, seed: seq<Character>): (r: seq<Character>)
    ensures !StoredValueAccepted(Storage.Lookup(items, CHARACTERS_KEY), Some(IsValidCharactersArray), codec) ==> r == seed
    ensures StoredValueAccepted(Storage.Lookup(items, CHARACTERS_KEY), Some(IsValidCharactersArray), codec) ==>
      r == CharactersFromJson(codec.decode(items[CHARACTERS_KEY]).value).GetOr(seed)
  {
    CharactersRoundTrip(seed);
    var j := SafeGet(Storage.Lookup(items, CHARACTERS_KEY), CharactersToJson(seed), Some(IsValidCharactersArray), codec);
    CharactersFromJson(j).GetOr(seed)
  }

  function LoadTemplates(items: map<string, string>, codec: Codec, seed: seq<Template>): (r: seq<Template>)
    ensures !StoredValueAccepted(Storage.Lookup(items, TEMPLATES_KEY), Some(IsValidTemplatesArray), codec) ==> r == seed
    ensures StoredValueAccepted(Storage.Lookup(items, TEMPLATES_KEY), Some(IsValidTemplatesArray), codec) ==>
      r == TemplatesFromJson(codec.decode(items[TEMPLATES_KEY]).value).GetOr(seed)
  {
    TemplatesRoundTrip(seed);
    var j := SafeGet(Storage.Lookup(items, TEMPLATES_KEY), TemplatesToJson(seed), Some(IsValidTemplatesArray), codec);
    TemplatesFromJson(j).GetOr(seed)
  }

  function LoadConfig(items: map<string, string>, codec: Codec, seed: Config): (r: Config)
    ensures !StoredValueAccepted(Storage.Lookup(items, CONFIG_KEY), Some(IsValidConfig), codec) ==> r == seed
    ensures StoredValueAccepted(Storage.Lookup(items, CONFIG_KEY), Some(IsValidConfig), codec) ==>
      r == ConfigFromJson(codec.decode(items[CONFIG_KEY]).value).GetOr(seed)
  {
    ConfigRoundTrip(seed);
    var j := SafeGet(Storage.Lookup(items, CONFIG_KEY), ConfigToJson(seed), Some(IsValidConfig), codec);
    ConfigFromJson(j).GetOr(seed)
  }

  /** Without an accepted stored value every collection loads as its seed. */
  lemma LoadFallsBackToSeed(items: map<string, string>, codec: Codec,
                            seedCharacters: seq<Character>, seedTemplates: seq<Template>, seedConfig: Config)
    ensures !StoredValueAccepted(Storage.Lookup(items, CHARACTERS_KEY), Some(IsValidCharactersArray), codec)
      ==> LoadCharacters(items, codec, seedCharacters) == seedCharacters
    ensures !StoredValueAccepted(Storage.Lookup(items, TEMPLATES_KEY), Some(IsValidTemplatesArray), codec)
      ==> LoadTemplates(items, codec, seedTemplates) == seedTemplates
    ensures !StoredValueAccepted(Storage.Lookup(items, CONFIG_KEY), Some(IsValidConfig), codec)
      ==> LoadConfig(items, codec, seedConfig) == seedConfig
  {
    CharactersRoundTrip(seedCharacters);
    TemplatesRoundTrip(seedTemplates);
    ConfigRoundTrip(seedConfig);
  }

  /** With a faithful codec, a saved collection reloads as itself. */
  lemma ReloadAfterSave(items: map<string, string>, codec: Codec,
                        cs: seq<Character>, ts: seq<Template>, config: Config,
                        seedCharacters: seq<Character>, seedTemplates: seq<Template>, seedConfig: Config)
    requires codec.Faithful()
    ensures Storage.Lookup(items, CHARACTERS_KEY) == Some(codec.encode(CharactersToJson(cs)))
      ==> LoadCharacters(items, codec, seedCharacters) == cs
    ensures Storage.Lookup(items, TEMPLATES_KEY) == Some(codec.encode(TemplatesToJson(ts)))
      ==> LoadTemplates(items, codec, seedTemplates) == ts
    ensures Storage.Lookup(items, CONFIG_KEY) == Some(codec.encode(ConfigToJson(config)))
      ==> LoadConfig(items, codec, seedConfig) == config
  {
    WrittenValuesAreValid(cs, ts, config);
    SafeGetAfterSave(CharactersToJson(cs), CharactersToJson(seedCharacters), IsValidCharactersArray, codec);
    SafeGetAfterSave(TemplatesToJson(ts), TemplatesToJson(seedTemplates), IsValidTemplatesArray, codec);
    SafeGetAfterSave(ConfigToJson(config), ConfigToJson(seedConfig), IsValidConfig, codec);
    CharactersRoundTrip(cs);
    TemplatesRoundTrip(ts);
    ConfigRoundTrip(config);
  }

  // ---------------------------------------------------------------------
  // The version cleanup

  /**
   * The storage after the cleanup effect: unless the marker already holds
   * the cleanup version, the three data keys are removed and the marker is set.
   */
  function Cleanup(items: map<string, string>): (r: map<string, string>)
    ensures Storage.Lookup(r, VERSION_KEY) == Some(CLEANUP_VERSION)
    ensures Storage.Lookup(items, VERSION_KEY) == Some(CLEANUP_VERSION) ==> r == items
    ensures Storage.Lookup(items, VERSION_KEY) != Some(CLEANUP_VERSION) ==>
      CHARACTERS_KEY !in r && TEMPLATES_KEY !in r && CONFIG_KEY !in r
    ensures forall k :: k in items && k !in {CHARACTERS_KEY, TEMPLATES_KEY, CONFIG_KEY, VERSION_KEY} ==> k in r && r[k] == items[k]
    ensures forall k :: k in r ==> k in items || k == VERSION_KEY
  {
    if Storage.Lookup(items, VERSION_KEY) == Some(CLEANUP_VERSION) then items
    else (items - {CHARACTERS_KEY, TEMPLATES_KEY, CONFIG_KEY})[VERSION_KEY := CLEANUP_VERSION]
  }

  /** Running the cleanup a second time changes nothing. */
  lemma CleanupIdempotent(items: map<string, string>)
    ensures Cleanup(Cleanup(items)) == Cleanup(items)
  {
  }

  /** After a cleanup that removed the data keys, the next load yields the seeds. */
  lemma ReloadAfterCleanup(items: map<string, string>, codec: Codec,
                           seedCharacters: seq<Character>, seedTemplates: seq<Template>, seedConfig: Config)
    requires Storage.Lookup(items, VERSION_KEY) != Some(CLEANUP_VERSION)
    ensures LoadCharacters(Cleanup(items), codec, seedCharacters) == seedCharacters
    ensures LoadTemplates(Cleanup(items), codec, seedTemplates) == seedTemplates
    ensures LoadConfig(Cleanup(items), codec, seedConfig) == seedConfig
  {
    LoadFallsBackToSeed(Cleanup(items), codec, seedCharacters, seedTemplates, seedConfig);
  }
}
