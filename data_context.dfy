/**
 * The data store of src/contexts/DataContext.tsx (`DataProvider`): the
 * character, template and config collections, their add / update / delete /
 * get operations, the whitelist operations built on `updateCharacter`, and
 * the write-through to local storage after every change.
 *
 * The record-level and collection-level effects are pure functions; the
 * class `DataStore` holds the provider state and performs them. `nanoid()`
 * and `new Date().toISOString()` are parameters of the operations that call
 * them.
 */
module DataContext {
  import opened Wrappers
  import opened Types
  import opened Json
  import opened Text
  import Seqs
  import Storage
  import Persistence

  // ---------------------------------------------------------------------
  // Records

  /** The `Omit<Character, 'id' | 'botId' | 'createdAt' | 'updatedAt'>` part of a character. */
  function CharacterDataOf(c: Character): CharacterData {
    CharacterData(c.avatar, c.gender, c.age, c.permission, c.nickname, c.region, c.profession,
      c.introduction, c.tags, c.greeting, c.displayImages, c.systemPrompt, c.whitelist)
  }

  /**
   * The record `addCharacter` builds: the given data plus a fresh id, a bot id
   * `bot_<tail>` and two timestamps read from the clock one after the other.
   */
  function NewCharacter(data: CharacterData, id: string, botSuffix: string, createdAt: string, updatedAt: string): (c: Character)
    ensures CharacterDataOf(c) == data
    ensures c.id == id && c.botId == "bot_" + botSuffix && StartsWith(c.botId, "bot_")
    ensures c.createdAt == createdAt && c.updatedAt == updatedAt
  {
    Character(id, "bot_" + botSuffix, data.avatar, data.gender, data.age, data.permission, data.nickname,
      data.region, data.profession, data.introduction, data.tags, data.greeting, data.displayImages,
      data.systemPrompt, data.whitelist, createdAt, updatedAt)
  }

  /** One field of an object spread `{...before, ...patch}`: the patch's value when it holds one, the old value otherwise. */
  predicate Spread<T(==)>(patch: Option<T>, before: T, after: T) {
    match patch
    case Some(v) => after == v
    case None => after == before
  }

  /** `{...c, ...p, updatedAt: now}`: every field the patch holds replaces the old one, and the clock wins over `p.updatedAt`. */
  function ApplyCharacterPatch(c: Character, p: CharacterPatch, now: string): (r: Character)
    ensures r.updatedAt == now
    ensures Spread(p.id, c.id, r.id) && Spread(p.botId, c.botId, r.botId) && Spread(p.createdAt, c.createdAt, r.createdAt)
    ensures Spread(p.avatar, c.avatar, r.avatar) && Spread(p.gender, c.gender, r.gender) && Spread(p.age, c.age, r.age)
    ensures Spread(p.permission, c.permission, r.permission) && Spread(p.nickname, c.nickname, r.nickname)
    ensures Spread(p.region, c.region, r.region) && Spread(p.profession, c.profession, r.profession)
    ensures Spread(p.introduction, c.introduction, r.introduction) && Spread(p.tags, c.tags, r.tags)
    ensures Spread(p.greeting, c.greeting, r.greeting) && Spread(p.displayImages, c.displayImages, r.displayImages)
    ensures Spread(p.systemPrompt, c.systemPrompt, r.systemPrompt) && Spread(p.whitelist, c.whitelist, r.whitelist)
    ensures p == NoCharacterChange ==> r == c.(updatedAt := now)
  {
    Character(p.id.GetOr(c.id), p.botId.GetOr(c.botId), p.avatar.GetOr(c.avatar), p.gender.GetOr(c.gender),
      p.age.GetOr(c.age), p.permission.GetOr(c.permission), p.nickname.GetOr(c.nickname),
      p.region.GetOr(c.region), p.profession.GetOr(c.profession), p.introduction.GetOr(c.introduction),
      p.tags.GetOr(c.tags), p.greeting.GetOr(c.greeting), p.displayImages.GetOr(c.displayImages),
      p.systemPrompt.GetOr(c.systemPrompt), p.whitelist.GetOr(c.whitelist), p.createdAt.GetOr(c.createdAt), now)
  }

  /** Applying the same patch at the same time twice is the same as applying it once. */
  lemma ApplyCharacterPatchIdempotent(c: Character, p: CharacterPatch, now: string)
    ensures ApplyCharacterPatch(ApplyCharacterPatch(c, p, now), p, now) == ApplyCharacterPatch(c, p, now)
  {
  }

  /** A patch holding only a whitelist changes the whitelist and the update time, nothing else. */
  lemma WhitelistPatchChangesOnlyWhitelist(c: Character, wl: seq<string>, now: string)
    ensures ApplyCharacterPatch(c, NoCharacterChange.(whitelist := Some(wl)), now) == c.(whitelist := wl, updatedAt := now)
  {
  }

  function TemplateDataOf(t: Template): TemplateData {
    TemplateData(t.name, t.description, t.content, t.category, t.isActive)
  }

  /** The record `addTemplate` builds. */
  function NewTemplate(data: TemplateData, id: string, createdAt: string, updatedAt: string): (t: Template)
    ensures TemplateDataOf(t) == data
    ensures t.id == id && t.createdAt == createdAt && t.updatedAt == updatedAt
  {
    Template(id, data.name, data.description, data.content, data.category, data.isActive, createdAt, updatedAt)
  }

  /** `{...t, ...p, updatedAt: now}`. */
  function ApplyTemplatePatch(t: Template, p: TemplatePatch, now: string): (r: Template)
    ensures r.updatedAt == now
    ensures Spread(p.id, t.id, r.id) && Spread(p.createdAt, t.createdAt, r.createdAt)
    ensures Spread(p.name, t.name, r.name) && Spread(p.description, t.description, r.description)
    ensures Spread(p.content, t.content, r.content) && Spread(p.category, t.category, r.category)
    ensures Spread(p.isActive, t.isActive, r.isActive)
    ensures p == NoTemplateChange ==> r == t.(updatedAt := now)
  {
    Template(p.id.GetOr(t.id), p.name.GetOr(t.name), p.description.GetOr(t.description),
      p.content.GetOr(t.content), p.category.GetOr(t.category), p.isActive.GetOr(t.isActive),
      p.createdAt.GetOr(t.createdAt), now)
  }

  /** `{...config, ...p}`. */
  function ApplyConfigPatch(c: Config, p: ConfigPatch): (r: Config)
    ensures p.defaultAvatars.None? ==> r == c
    ensures p.defaultAvatars.Some? ==> r.defaultAvatars == p.defaultAvatars.value
  {
    Config(p.defaultAvatars.GetOr(c.defaultAvatars))
  }

  // ---------------------------------------------------------------------
  // Collections

  /** No two records share an id. The source never checks this; it holds as long as every added id is fresh. */
  ghost predicate CharacterIdsUnique(cs: seq<Character>) {
    forall i, j :: 0 <= i < j < |cs| ==> cs[i].id != cs[j].id
  }

  ghost predicate TemplateIdsUnique(ts: seq<Template>) {
    forall i, j :: 0 <= i < j < |ts| ==> ts[i].id != ts[j].id
  }

  /** `prev.map(char => char.id === id ? {...char, ...updates, updatedAt: now} : char)`. */
  function UpdateCharacters(cs: seq<Character>, id: string, p: CharacterPatch, now: string): (r: seq<Character>)
    ensures |r| == |cs|
    ensures forall i :: 0 <= i < |cs| && cs[i].id == id ==> r[i] == ApplyCharacterPatch(cs[i], p, now)
    ensures forall i :: 0 <= i < |cs| && cs[i].id != id ==> r[i] == cs[i]
  {
    Seqs.MapWhere(cs, (c: Character) => c.id == id, (c: Character) => ApplyCharacterPatch(c, p, now))
  }

  /** `prev.filter(char => char.id !== id)`. */
  function DeleteCharacters(cs: seq<Character>, id: string): (r: seq<Character>)
    ensures forall i :: 0 <= i < |r| ==> r[i].id != id && r[i] in cs
    ensures forall i :: 0 <= i < |cs| && cs[i].id != id ==> cs[i] in r
    ensures Seqs.IsSubsequence(r, cs)
    ensures forall x :: Seqs.Occurrences(r, x) == if x.id != id then Seqs.Occurrences(cs, x) else 0
  {
    var keep := (c: Character) => c.id != id;
    Seqs.FilterOccurrences(cs, keep);
    Seqs.Filter(cs, keep)
  }

  /** `characters.find(char => char.id === id)`. */
  function FindCharacter(cs: seq<Character>, id: string): (r: Option<Character>)
    ensures r.Some? ==> r.value in cs && r.value.id == id
    ensures r.Some? ==> exists i :: 0 <= i < |cs| && cs[i] == r.value && forall j :: 0 <= j < i ==> cs[j].id != id
    ensures r.None? <==> forall i :: 0 <= i < |cs| ==> cs[i].id != id
  {
    Seqs.Find(cs, (c: Character) => c.id == id)
  }

  function UpdateTemplates(ts: seq<Template>, id: string, p: TemplatePatch, now: string): (r: seq<Template>)
    ensures |r| == |ts|
    ensures forall i :: 0 <= i < |ts| && ts[i].id == id ==> r[i] == ApplyTemplatePatch(ts[i], p, now)
    ensures forall i :: 0 <= i < |ts| && ts[i].id != id ==> r[i] == ts[i]
  {
    Seqs.MapWhere(ts, (t: Template) => t.id == id, (t: Template) => ApplyTemplatePatch(t, p, now))
  }

  function DeleteTemplates(ts: seq<Template>, id: string): (r: seq<Template>)
    ensures forall i :: 0 <= i < |r| ==> r[i].id != id && r[i] in ts
    ensures forall i :: 0 <= i < |ts| && ts[i].id != id ==> ts[i] in r
    ensures Seqs.IsSubsequence(r, ts)
    ensures forall x :: Seqs.Occurrences(r, x) == if x.id != id then Seqs.Occurrences(ts, x) else 0
  {
    var keep := (t: Template) => t.id != id;
    Seqs.FilterOccurrences(ts, keep);
    Seqs.Filter(ts, keep)
  }

  function FindTemplate(ts: seq<Template>, id: string): (r: Option<Template>)
    ensures r.Some? ==> r.value in ts && r.value.id == id
    ensures r.Some? ==> exists i :: 0 <= i < |ts| && ts[i] == r.value && forall j :: 0 <= j < i ==> ts[j].id != id
    ensures r.None? <==> forall i :: 0 <= i < |ts| ==> ts[i].id != id
  {
    Seqs.Find(ts, (t: Template) => t.id == id)
  }

  /** An update or delete for an id no record has leaves the collection as it was. */
  lemma UnknownIdIsNoOp(cs: seq<Character>, ts: seq<Template>, id: string, cp: CharacterPatch, tp: TemplatePatch, now: string)
    requires forall i :: 0 <= i < |cs| ==> cs[i].id != id
    requires forall i :: 0 <= i < |ts| ==> ts[i].id != id
    ensures UpdateCharacters(cs, id, cp, now) == cs && DeleteCharacters(cs, id) == cs
    ensures UpdateTemplates(ts, id, tp, now) == ts && DeleteTemplates(ts, id) == ts
  {
    Seqs.FilterKeepsAll(cs, (c: Character) => c.id != id);
    Seqs.FilterKeepsAll(ts, (t: Template) => t.id != id);
  }

  /** With unique ids, looking a record up by its own id finds that record. */
  lemma FindCharacterById(cs: seq<Character>, i: nat)
    requires CharacterIdsUnique(cs) && i < |cs|
    ensures FindCharacter(cs, cs[i].id) == Some(cs[i])
  {
    var r := FindCharacter(cs, cs[i].id);
    var k :| 0 <= k < |cs| && cs[k] == r.value;
    assert cs[k].id == cs[i].id;
  }

  /** Adding a record with a fresh id keeps ids unique. */
  lemma AddKeepsIdsUnique(cs: seq<Character>, c: Character)
    requires CharacterIdsUnique(cs) && forall i :: 0 <= i < |cs| ==> cs[i].id != c.id
    ensures CharacterIdsUnique(cs + [c])
  {
  }

  /** An update whose patch leaves the id alone keeps ids unique. */
  lemma UpdateKeepsIdsUnique(cs: seq<Character>, id: string, p: CharacterPatch, now: string)
    requires CharacterIdsUnique(cs) && p.id.None?
    ensures CharacterIdsUnique(UpdateCharacters(cs, id, p, now))
  {
    var r := UpdateCharacters(cs, id, p, now);
    forall i, j | 0 <= i < j < |r| ensures r[i].id != r[j].id {
      assert r[i].id == cs[i].id && r[j].id == cs[j].id;
    }
  }

  /** Deleting keeps ids unique. */
  lemma DeleteKeepsIdsUnique(cs: seq<Character>, id: string)
    requires CharacterIdsUnique(cs)
    ensures CharacterIdsUnique(DeleteCharacters(cs, id))
  {
    var r := DeleteCharacters(cs, id);
    var ids := seq(|cs|, i requires 0 <= i < |cs| => cs[i].id);
    assert Seqs.NoDup(ids);
    SubsequenceIds(r, cs);
    Seqs.SubsequenceNoDup(seq(|r|, i requires 0 <= i < |r| => r[i].id), ids);
    forall i, j | 0 <= i < j < |r| ensures r[i].id != r[j].id {
      assert seq(|r|, i requires 0 <= i < |r| => r[i].id)[i] == r[i].id;
      assert seq(|r|, i requires 0 <= i < |r| => r[i].id)[j] == r[j].id;
    }
  }

  /** The ids of a subsequence form a subsequence of the ids. */
  lemma {:induction false} SubsequenceIds(r: seq<Character>, cs: seq<Character>)
    requires Seqs.IsSubsequence(r, cs)
    ensures Seqs.IsSubsequence(seq(|r|, i requires 0 <= i < |r| => r[i].id), seq(|cs|, i requires 0 <= i < |cs| => cs[i].id))
    decreases |cs|
  {
    var ri := seq(|r|, i requires 0 <= i < |r| => r[i].id);
    var ci := seq(|cs|, i requires 0 <= i < |cs| => cs[i].id);
    if r != [] && cs != [] {
      assert ci[1..] == seq(|cs[1..]|, i requires 0 <= i < |cs[1..]| => cs[1..][i].id);
      if r[0] == cs[0] && Seqs.IsSubsequence(r[1..], cs[1..]) {
        SubsequenceIds(r[1..], cs[1..]);
        assert ri[1..] == seq(|r[1..]|, i requires 0 <= i < |r[1..]| => r[1..][i].id);
      } else {
        SubsequenceIds(r, cs[1..]);
      }
    }
  }

  // ---------------------------------------------------------------------
  // Whitelist operations

  /** The patch `addToWhitelist` hands to `updateCharacter`: the found record's whitelist plus the phone, duplicates included. */
  function WhitelistAddPatch(cs: seq<Character>, characterId: string, phone: string): (r: Option<CharacterPatch>)
    ensures r.None? <==> FindCharacter(cs, characterId).None?
    ensures r.Some? ==> r.value == NoCharacterChange.(whitelist := Some(FindCharacter(cs, characterId).value.whitelist + [phone]))
  {
    match FindCharacter(cs, characterId)
    case None => None
    case Some(c) => Some(NoCharacterChange.(whitelist := Some(c.whitelist + [phone])))
  }

  /** The patch `removeFromWhitelist` hands to `updateCharacter`: the found record's whitelist without the phone. */
  function WhitelistRemovePatch(cs: seq<Character>, characterId: string, phone: string): (r: Option<CharacterPatch>)
    ensures r.None? <==> FindCharacter(cs, characterId).None?
    ensures r.Some? ==> r.value == NoCharacterChange.(whitelist := Some(Seqs.Without(FindCharacter(cs, characterId).value.whitelist, phone)))
  {
    match FindCharacter(cs, characterId)
    case None => None
    case Some(c) => Some(NoCharacterChange.(whitelist := Some(Seqs.Without(c.whitelist, phone))))
  }

  /** The collection after `addToWhitelist` (and its update, when the character exists). */
  function AddPhone(cs: seq<Character>, characterId: string, phone: string, now: string): (r: seq<Character>)
    ensures |r| == |cs|
    ensures FindCharacter(cs, characterId).None? ==> r == cs
    ensures forall i :: 0 <= i < |cs| && cs[i].id != characterId ==> r[i] == cs[i]
    ensures forall i :: 0 <= i < |cs| && cs[i].id == characterId ==>
      r[i] == cs[i].(whitelist := FindCharacter(cs, characterId).value.whitelist + [phone], updatedAt := now)
  {
    match WhitelistAddPatch(cs, characterId, phone)
    case None => cs
    case Some(p) => UpdateCharacters(cs, characterId, p, now)
  }

  function RemovePhone(cs: seq<Character>, characterId: string, phone: string, now: string): (r: seq<Character>)
    ensures |r| == |cs|
    ensures FindCharacter(cs, characterId).None? ==> r == cs
    ensures forall i :: 0 <= i < |cs| && cs[i].id != characterId ==> r[i] == cs[i]
    ensures forall i :: 0 <= i < |cs| && cs[i].id == characterId ==>
      r[i] == cs[i].(whitelist := Seqs.Without(FindCharacter(cs, characterId).value.whitelist, phone), updatedAt := now)
  {
    match WhitelistRemovePatch(cs, characterId, phone)
    case None => cs
    case Some(p) => UpdateCharacters(cs, characterId, p, now)
  }

  /**
   * With unique ids, adding a phone appends it to exactly the targeted
   * whitelist, adding one occurrence even when it is already there; every
   * other record is untouched. An unknown id changes nothing.
   */
  lemma AddToWhitelistEffect(cs: seq<Character>, characterId: string, phone: string, now: string)
    requires CharacterIdsUnique(cs)
    ensures |AddPhone(cs, characterId, phone, now)| == |cs|
    ensures forall i :: 0 <= i < |cs| && cs[i].id == characterId ==>
      AddPhone(cs, characterId, phone, now)[i] == cs[i].(whitelist := cs[i].whitelist + [phone], updatedAt := now)
      && Seqs.Occurrences(AddPhone(cs, characterId, phone, now)[i].whitelist, phone) == Seqs.Occurrences(cs[i].whitelist, phone) + 1
    ensures forall i :: 0 <= i < |cs| && cs[i].id != characterId ==> AddPhone(cs, characterId, phone, now)[i] == cs[i]
  {
    var r := AddPhone(cs, characterId, phone, now);
    forall i | 0 <= i < |cs| && cs[i].id == characterId
      ensures r[i] == cs[i].(whitelist := cs[i].whitelist + [phone], updatedAt := now)
      ensures Seqs.Occurrences(r[i].whitelist, phone) == Seqs.Occurrences(cs[i].whitelist, phone) + 1
    {
      FindCharacterById(cs, i);
      WhitelistPatchChangesOnlyWhitelist(cs[i], cs[i].whitelist + [phone], now);
      Seqs.OccurrencesAppend(cs[i].whitelist, phone, phone);
    }
  }

  /**
   * With unique ids, removing a phone deletes every occurrence of it from the
   * targeted whitelist and keeps the count of every other phone; every other
   * record is untouched. An unknown id changes nothing.
   */
  lemma RemoveFromWhitelistEffect(cs: seq<Character>, characterId: string, phone: string, now: string)
    requires CharacterIdsUnique(cs)
    ensures |RemovePhone(cs, characterId, phone, now)| == |cs|
    ensures forall i, x :: 0 <= i < |cs| && cs[i].id == characterId ==>
      Seqs.Occurrences(RemovePhone(cs, characterId, phone, now)[i].whitelist, x)
        == if x == phone then 0 else Seqs.Occurrences(cs[i].whitelist, x)
    ensures forall i :: 0 <= i < |cs| && cs[i].id != characterId ==> RemovePhone(cs, characterId, phone, now)[i] == cs[i]
  {
    var r := RemovePhone(cs, characterId, phone, now);
    forall i | 0 <= i < |cs| && cs[i].id == characterId
      ensures r[i].whitelist == Seqs.Without(cs[i].whitelist, phone)
    {
      FindCharacterById(cs, i);
    }
    forall i, x | 0 <= i < |cs| && cs[i].id == characterId
      ensures Seqs.Occurrences(r[i].whitelist, x) == if x == phone then 0 else Seqs.Occurrences(cs[i].whitelist, x)
    {
      Seqs.WithoutOccurrences(cs[i].whitelist, phone, x);
    }
  }

  // ---------------------------------------------------------------------
  // The provider

  class DataStore {
    var characters: seq<Character>
    var templates: seq<Template>
    var config: Config
    const storage: Storage.LocalStorage
    const codec: Codec

    /** The storage slot of each collection holds exactly its current value. */
    ghost predicate Saved()
      reads this, storage
    {
      Storage.Lookup(storage.items, Persistence.CHARACTERS_KEY) == Some(codec.encode(Persistence.CharactersToJson(characters)))
      && Storage.Lookup(storage.items, Persistence.TEMPLATES_KEY) == Some(codec.encode(Persistence.TemplatesToJson(templates)))
      && Storage.Lookup(storage.items, Persistence.CONFIG_KEY) == Some(codec.encode(Persistence.ConfigToJson(config)))
    }

    /**
     * Mounting the provider: each state initialiser reads its key, falling
     * back to the seed `generateMock...()` just produced (given here, since
     * its ids come from the id generator), and only afterwards does the
     * cleanup effect run on the storage.
     */
    constructor(storage: Storage.LocalStorage, codec: Codec,
                seedCharacters: seq<Character>, seedTemplates: seq<Template>, seedConfig: Config)
      modifies storage
      ensures this.storage == storage && this.codec == codec
      ensures characters == Persistence.LoadCharacters(old(storage.items), codec, seedCharacters)
      ensures templates == Persistence.LoadTemplates(old(storage.items), codec, seedTemplates)
      ensures config == Persistence.LoadConfig(old(storage.items), codec, seedConfig)
      ensures storage.items == Persistence.Cleanup(old(storage.items))
    {
      this.storage := storage;
      this.codec := codec;
      characters := Persistence.LoadCharacters(storage.items, codec, seedCharacters);
      templates := Persistence.LoadTemplates(storage.items, codec, seedTemplates);
      config := Persistence.LoadConfig(storage.items, codec, seedConfig);
      new;
      CleanupVersion();
    }

    /** The cleanup effect: drop the three data keys and set the marker, unless the marker is already current. */
    method CleanupVersion()
      modifies storage
      ensures storage.items == Persistence.Cleanup(old(storage.items))
    {
      var current := storage.GetItem(Persistence.VERSION_KEY);
      if current != Some(Persistence.CLEANUP_VERSION) {
        storage.RemoveItem(Persistence.CHARACTERS_KEY);
        storage.RemoveItem(Persistence.TEMPLATES_KEY);
        storage.RemoveItem(Persistence.CONFIG_KEY);
        storage.SetItem(Persistence.VERSION_KEY, Persistence.CLEANUP_VERSION);
        assert storage.items == Persistence.Cleanup(old(storage.items));
      }
    }

    /** `saveToStorage('demo_characters', characters)`. */
    method SaveCharacters()
      modifies storage
      ensures storage.items == old(storage.items)[Persistence.CHARACTERS_KEY := codec.encode(Persistence.CharactersToJson(characters))]
    {
      storage.SetItem(Persistence.CHARACTERS_KEY, codec.encode(Persistence.CharactersToJson(characters)));
    }

    method SaveTemplates()
      modifies storage
      ensures storage.items == old(storage.items)[Persistence.TEMPLATES_KEY := codec.encode(Persistence.TemplatesToJson(templates))]
    {
      storage.SetItem(Persistence.TEMPLATES_KEY, codec.encode(Persistence.TemplatesToJson(templates)));
    }

    method SaveConfig()
      modifies storage
      ensures storage.items == old(storage.items)[Persistence.CONFIG_KEY := codec.encode(Persistence.ConfigToJson(config))]
    {
      storage.SetItem(Persistence.CONFIG_KEY, codec.encode(Persistence.ConfigToJson(config)));
    }

    /** `addCharacter(data)`: append one new record and save the collection. */
    method AddCharacter(data: CharacterData, newId: string, botSuffix: string, createdAt: string, updatedAt: string)
      requires forall i :: 0 <= i < |characters| ==> characters[i].id != newId
      modifies this, storage
      ensures characters == old(characters) + [NewCharacter(data, newId, botSuffix, createdAt, updatedAt)]
      ensures templates == old(templates) && config == old(config)
      ensures storage.items == old(storage.items)[Persistence.CHARACTERS_KEY := codec.encode(Persistence.CharactersToJson(characters))]
      ensures old(CharacterIdsUnique(characters)) ==> CharacterIdsUnique(characters)
    {
      characters := characters + [NewCharacter(data, newId, botSuffix, createdAt, updatedAt)];
      SaveCharacters();
    }

    /** `updateCharacter(id, updates)`. */
    method UpdateCharacter(id: string, updates: CharacterPatch, now: string)
      modifies this, storage
      ensures characters == UpdateCharacters(old(characters), id, updates, now)
      ensures templates == old(templates) && config == old(config)
      ensures storage.items == old(storage.items)[Persistence.CHARACTERS_KEY := codec.encode(Persistence.CharactersToJson(characters))]
    {
      characters := UpdateCharacters(characters, id, updates, now);
      SaveCharacters();
    }

    /** `deleteCharacter(id)`. */
    method DeleteCharacter(id: string)
      modifies this, storage
      ensures characters == DeleteCharacters(old(characters), id)
      ensures templates == old(templates) && config == old(config)
      ensures storage.items == old(storage.items)[Persistence.CHARACTERS_KEY := codec.encode(Persistence.CharactersToJson(characters))]
    {
      characters := DeleteCharacters(characters, id);
      SaveCharacters();
    }

    /** `getCharacter(id)`. */
    function GetCharacter(id: string): (r: Option<Character>)
      reads this
      ensures r.Some? ==> r.value in characters && r.value.id == id
      ensures r.Some? ==> exists i :: 0 <= i < |characters| && characters[i] == r.value && forall j :: 0 <= j < i ==> characters[j].id != id
      ensures r.None? <==> forall i :: 0 <= i < |characters| ==> characters[i].id != id
    {
      FindCharacter(characters, id)
    }

    /** `addTemplate(data)`. */
    method AddTemplate(data: TemplateData, newId: string, createdAt: string, updatedAt: string)
      requires forall i :: 0 <= i < |templates| ==> templates[i].id != newId
      modifies this, storage
      ensures templates == old(templates) + [NewTemplate(data, newId, createdAt, updatedAt)]
      ensures characters == old(characters) && config == old(config)
      ensures storage.items == old(storage.items)[Persistence.TEMPLATES_KEY := codec.encode(Persistence.TemplatesToJson(templates))]
      ensures old(TemplateIdsUnique(templates)) ==> TemplateIdsUnique(templates)
    {
      templates := templates + [NewTemplate(data, newId, createdAt, updatedAt)];
      SaveTemplates();
    }

    method UpdateTemplate(id: string, updates: TemplatePatch, now: string)
      modifies this, storage
      ensures templates == UpdateTemplates(old(templates), id, updates, now)
      ensures characters == old(characters) && config == old(config)
      ensures storage.items == old(storage.items)[Persistence.TEMPLATES_KEY := codec.encode(Persistence.TemplatesToJson(templates))]
    {
      templates := UpdateTemplates(templates, id, updates, now);
      SaveTemplates();
    }

    method DeleteTemplate(id: string)
      modifies this, storage
      ensures templates == DeleteTemplates(old(templates), id)
      ensures characters == old(characters) && config == old(config)
      ensures storage.items == old(storage.items)[Persistence.TEMPLATES_KEY := codec.encode(Persistence.TemplatesToJson(templates))]
    {
      templates := DeleteTemplates(templates, id);
      SaveTemplates();
    }

    function GetTemplate(id: string): (r: Option<Template>)
      reads this
      ensures r.Some? ==> r.value in templates && r.value.id == id
      ensures r.Some? ==> exists i :: 0 <= i < |templates| && templates[i] == r.value && forall j :: 0 <= j < i ==> templates[j].id != id
      ensures r.None? <==> forall i :: 0 <= i < |templates| ==> templates[i].id != id
    {
      FindTemplate(templates, id)
    }

    /** `updateConfig(updates)`. */
    method UpdateConfig(updates: ConfigPatch)
      modifies this, storage
      ensures config == ApplyConfigPatch(old(config), updates)
      ensures characters == old(characters) && templates == old(templates)
      ensures storage.items == old(storage.items)[Persistence.CONFIG_KEY := codec.encode(Persistence.ConfigToJson(config))]
    {
      config := ApplyConfigPatch(config, updates);
      SaveConfig();
    }

    /** `addToWhitelist(characterId, phone)`: an update of the found character, or nothing at all (not even a save). */
    method AddToWhitelist(characterId: string, phone: string, now: string)
      modifies this, storage
      ensures characters == AddPhone(old(characters), characterId, phone, now)
      ensures templates == old(templates) && config == old(config)
      ensures WhitelistAddPatch(old(characters), characterId, phone).None? ==> storage.items == old(storage.items)
      ensures WhitelistAddPatch(old(characters), characterId, phone).Some? ==>
        storage.items == old(storage.items)[Persistence.CHARACTERS_KEY := codec.encode(Persistence.CharactersToJson(characters))]
    {
      var character := GetCharacter(characterId);
      if character.Some? {
        UpdateCharacter(characterId, NoCharacterChange.(whitelist := Some(character.value.whitelist + [phone])), now);
      }
    }

    /** `removeFromWhitelist(characterId, phone)`. */
    method RemoveFromWhitelist(characterId: string, phone: string, now: string)
      modifies this, storage
      ensures characters == RemovePhone(old(characters), characterId, phone, now)
      ensures templates == old(templates) && config == old(config)
      ensures WhitelistRemovePatch(old(characters), characterId, phone).None? ==> storage.items == old(storage.items)
      ensures WhitelistRemovePatch(old(characters), characterId, phone).Some? ==>
        storage.items == old(storage.items)[Persistence.CHARACTERS_KEY := codec.encode(Persistence.CharactersToJson(characters))]
    {
      var character := GetCharacter(characterId);
      if character.Some? {
        UpdateCharacter(characterId, NoCharacterChange.(whitelist := Some(Seqs.Without(character.value.whitelist, phone))), now);
      }
    }
  }

  /**
   * Once every slot has been written, a fresh provider mounted on the same
   * storage (with a faithful codec and the version marker in place) starts
   * from exactly the saved state.
   */
  lemma RemountRestoresState(store: DataStore, seedCharacters: seq<Character>, seedTemplates: seq<Template>, seedConfig: Config)
    requires store.codec.Faithful() && store.Saved()
    ensures Persistence.LoadCharacters(store.storage.items, store.codec, seedCharacters) == store.characters
    ensures Persistence.LoadTemplates(store.storage.items, store.codec, seedTemplates) == store.templates
    ensures Persistence.LoadConfig(store.storage.items, store.codec, seedConfig) == store.config
  {
    Persistence.ReloadAfterSave(store.storage.items, store.codec, store.characters, store.templates, store.config,
      seedCharacters, seedTemplates, seedConfig);
  }
}
