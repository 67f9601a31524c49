/**
 * The shapes of src/types/index.ts: per-language text, characters,
 * templates, the global configuration and the session user, together with
 * the `Omit<...>` inputs of the add operations and the `Partial<...>` patches
 * of the update operations.
 */
module Types {
  import opened Wrappers

  /** The three editing languages (`Language`). */
  datatype Lang = Zh | En | Ar {
    /** The key used for this language in objects and in `LANGUAGES`. */
    function Key(): string {
      match this
      case Zh => "zh"
      case En => "en"
      case Ar => "ar"
    }
  }

  /** A value per language: `{zh, en, ar}`. */
  datatype PerLang<T> = PerLang(zh: T, en: T, ar: T) {

    function Get(l: Lang): T {
      match l
      case Zh => zh
      case En => en
      case Ar => ar
    }

    /** `{...this, [l]: v}`. */
    function Set(l: Lang, v: T): (r: PerLang<T>)
      ensures r.Get(l) == v
      ensures forall m :: m != l ==> r.Get(m) == Get(m)
    {
      match l
      case Zh => this.(zh := v)
      case En => this.(en := v)
      case Ar => this.(ar := v)
    }
  }

  /** `MultiLangText`. */
  type MultiLangText = PerLang<string>

  /** The per-language tag lists of a character. */
  type Tags = PerLang<seq<string>>

  /** `{zh: '', en: '', ar: ''}`, the base used when there is no stored text. */
  const EmptyText: MultiLangText := PerLang("", "", "")

  /** `{zh: [], en: [], ar: []}`. */
  const EmptyTags: Tags := PerLang([], [], [])

  datatype Gender = Male | Female | Other {
    function Key(): string {
      match this
      case Male => "male"
      case Female => "female"
      case Other => "other"
    }
  }

  datatype Permission = Public | Private {
    function Key(): string {
      match this
      case Public => "public"
      case Private => "private"
    }
  }

  /** An AI character. */
  datatype Character = Character(
    id: string,
    botId: string,
    avatar: string,
    gender: Gender,
    age: int,
    permission: Permission,
    nickname: MultiLangText,
    region: MultiLangText,
    profession: MultiLangText,
    introduction: MultiLangText,
    tags: Tags,
    greeting: MultiLangText,
    displayImages: seq<string>,
    systemPrompt: string,
    whitelist: seq<string>,
    createdAt: string,
    updatedAt: string)

  /** `Omit<Character, 'id' | 'botId' | 'createdAt' | 'updatedAt'>`, the input of `addCharacter`. */
  datatype CharacterData = CharacterData(
    avatar: string,
    gender: Gender,
    age: int,
    permission: Permission,
    nickname: MultiLangText,
    region: MultiLangText,
    profession: MultiLangText,
    introduction: MultiLangText,
    tags: Tags,
    greeting: MultiLangText,
    displayImages: seq<string>,
    systemPrompt: string,
    whitelist: seq<string>)

  /** `Partial<Character>`: each field present or absent. */
  datatype CharacterPatch = CharacterPatch(
    id: Option<string>,
    botId: Option<string>,
    avatar: Option<string>,
    gender: Option<Gender>,
    age: Option<int>,
    permission: Option<Permission>,
    nickname: Option<MultiLangText>,
    region: Option<MultiLangText>,
    profession: Option<MultiLangText>,
    introduction: Option<MultiLangText>,
    tags: Option<Tags>,
    greeting: Option<MultiLangText>,
    displayImages: Option<seq<string>>,
    systemPrompt: Option<string>,
    whitelist: Option<seq<string>>,
    createdAt: Option<string>,
    updatedAt: Option<string>)

  /** The empty patch `{}`. */
  const NoCharacterChange: CharacterPatch := CharacterPatch(
    None, None, None, None, None, None, None, None, None, None, None, None, None, None, None, None, None)

  /** A prompt template. */
  datatype Template = Template(
    id: string,
    name: MultiLangText,
    description: MultiLangText,
    content: MultiLangText,
    category: string,
    isActive: bool,
    createdAt: string,
    updatedAt: string)

  /** `Omit<Template, 'id' | 'createdAt' | 'updatedAt'>`, the input of `addTemplate`. */
  datatype TemplateData = TemplateData(
    name: MultiLangText,
    description: MultiLangText,
    content: MultiLangText,
    category: string,
    isActive: bool)

  /** `Partial<Template>`. */
  datatype TemplatePatch = TemplatePatch(
    id: Option<string>,
    name: Option<MultiLangText>,
    description: Option<MultiLangText>,
    content: Option<MultiLangText>,
    category: Option<string>,
    isActive: Option<bool>,
    createdAt: Option<string>,
    updatedAt: Option<string>)

  /** The empty patch `{}`. */
  const NoTemplateChange: TemplatePatch := TemplatePatch(None, None, None, None, None, None, None, None)

  /** The global configuration. */
  datatype Config = Config(defaultAvatars: seq<string>)

  /** `Partial<Config>`. */
  datatype ConfigPatch = ConfigPatch(defaultAvatars: Option<seq<string>>)

  /** The session user. */
  datatype User = User(id: string, username: string)
}
