/**
 * The seed data of src/utils/mockData.ts: three characters, three templates
 * and the default configuration, written out field by field. The source draws
 * every `id` and the tail of every `botId` from `nanoid()`; here they are
 * parameters. The seed dates are ISO date strings, which `new Date(...)`
 * followed by `toISOString()` turns into midnight UTC. Long texts are named
 * constants so that a proof about one record does not carry the others.
 */
module MockData {
  import opened Types
  import opened Text
  import Seqs
  import Constants
  import Persistence

  const XIAOYA_AVATAR := "https://images.unsplash.com/photo-1494790108755-2616b612b742?w=150&h=150&fit=crop&crop=face"
  const XIAOYA_INTRODUCTION_ZH := "我是小雅，一个友善的AI助手，可以帮助您解答问题和提供建议。"
  const XIAOYA_INTRODUCTION_EN := "I am Xiaoya, a friendly AI assistant who can help answer questions and provide advice."
  const XIAOYA_INTRODUCTION_AR := "أنا شياويا، مساعد ذكي ودود يمكنني مساعدتك في الإجابة على الأسئلة وتقديم النصائح."
  const XIAOYA_GREETING_ZH := "你好！我是小雅，很高兴为您服务！有什么可以帮助您的吗？"
  const XIAOYA_GREETING_EN := "Hello! I am Xiaoya, nice to serve you! How can I help you?"
  const XIAOYA_GREETING_AR := "مرحبا! أنا شياويا، من دواعي سروري خدمتك! كيف يمكنني مساعدتك؟"
  const XIAOYA_IMAGE_1 := "https://images.unsplash.com/photo-1494790108755-2616b612b742?w=300&h=400&fit=crop"
  const XIAOYA_IMAGE_2 := "https://images.unsplash.com/photo-1507003211169-0a1dd7228f2d?w=300&h=400&fit=crop"
  const XIAOYA_SYSTEM_PROMPT := "You are Xiaoya, a helpful and friendly AI assistant. Always be polite, professional, and try your best to help users with their questions."
  const TOM_AVATAR := "https://images.unsplash.com/photo-1472099645785-5658abf4ff4e?w=150&h=150&fit=crop&crop=face"
  const TOM_INTRODUCTION_ZH := "我是Tom，专注于技术领域的AI助手，擅长编程、架构设计和技术咨询。"
  const TOM_INTRODUCTION_EN := "I am Tom, an AI assistant focused on technology, specializing in programming, architecture design, and technical consulting."
  const TOM_INTRODUCTION_AR := "أنا توم، مساعد ذكي يركز على التكنولوجيا، متخصص في البرمجة وتصميم البنية التحتية والاستشارات التقنية."
  const TOM_GREETING_ZH := "您好！我是Tom，您的技术顾问。有什么技术问题需要探讨吗？"
  const TOM_GREETING_EN := "Hello! I am Tom, your technical consultant. Any technical questions to discuss?"
  const TOM_GREETING_AR := "مرحبا! أنا توم، مستشارك التقني. هل لديك أي أسئلة تقنية للمناقشة؟"
  const TOM_IMAGE_1 := "https://images.unsplash.com/photo-1472099645785-5658abf4ff4e?w=300&h=400&fit=crop"
  const TOM_IMAGE_2 := "https://images.unsplash.com/photo-1560250097-0b93528c311a?w=300&h=400&fit=crop"
  const TOM_SYSTEM_PROMPT := "You are Tom, a technical expert AI assistant. You specialize in programming, software architecture, and providing technical solutions. Be precise, helpful, and professional."
  const LILY_AVATAR := "https://images.unsplash.com/photo-1438761681033-6461ffad8d80?w=150&h=150&fit=crop&crop=face"
  const LILY_INTRODUCTION_ZH := "我是Lily，专业的UI/UX设计师，热爱创意设计，可以为您提供设计建议和创意灵感。"
  const LILY_INTRODUCTION_EN := "I am Lily, a professional UI/UX designer who loves creative design and can provide design advice and creative inspiration."
  const LILY_INTRODUCTION_AR := "أنا ليلي، مصممة واجهة مستخدم محترفة أحب التصميم الإبداعي ويمكنني تقديم نصائح التصميم والإلهام الإبداعي."
  const LILY_GREETING_ZH := "嗨！我是Lily，让我们一起创造美好的设计吧！有什么设计需求吗？"
  const LILY_GREETING_EN := "Hi! I am Lily, let's create beautiful designs together! Any design needs?"
  const LILY_GREETING_AR := "مرحبا! أنا ليلي، دعونا ننشئ تصاميم جميلة معا! هل لديك أي احتياجات تصميمية؟"
  const LILY_IMAGE_1 := "https://images.unsplash.com/photo-1438761681033-6461ffad8d80?w=300&h=400&fit=crop"
  const LILY_IMAGE_2 := "https://images.unsplash.com/photo-1534528741775-53994a69daeb?w=300&h=400&fit=crop"
  const LILY_SYSTEM_PROMPT := "You are Lily, a creative UI/UX designer AI assistant. You are passionate about design, aesthetics, and user experience. Provide creative and practical design advice."
  const WELCOME_NAME_ZH := "欢迎消息模板"
  const WELCOME_NAME_EN := "Welcome Message Template"
  const WELCOME_NAME_AR := "قالب رسالة الترحيب"
  const WELCOME_DESCRIPTION_ZH := "用于新用户的欢迎消息模板"
  const WELCOME_DESCRIPTION_EN := "Welcome message template for new users"
  const WELCOME_DESCRIPTION_AR := "قالب رسالة ترحيب للمستخدمين الجدد"
  const WELCOME_CONTENT_ZH := "欢迎来到我们的平台！我们很高兴您的加入。如果您有任何问题，请随时联系我们。"
  const WELCOME_CONTENT_EN := "Welcome to our platform! We are glad to have you join us. If you have any questions, please feel free to contact us."
  const WELCOME_CONTENT_AR := "مرحبا بك في منصتنا! نحن سعداء لانضمامك إلينا. إذا كان لديك أي أسئلة، لا تتردد في الاتصال بنا."
  const SUPPORT_NAME_ZH := "技术支持模板"
  const SUPPORT_NAME_EN := "Technical Support Template"
  const SUPPORT_NAME_AR := "قالب الدعم التقني"
  const SUPPORT_DESCRIPTION_ZH := "技术支持相关的回复模板"
  const SUPPORT_DESCRIPTION_EN := "Reply template for technical support"
  const SUPPORT_DESCRIPTION_AR := "قالب الرد للدعم التقني"
  const SUPPORT_CONTENT_ZH := "感谢您的反馈。我们的技术团队正在处理您的问题，预计在24小时内给您回复。"
  const SUPPORT_CONTENT_EN := "Thank you for your feedback. Our technical team is working on your issue and we expect to reply within 24 hours."
  const SUPPORT_CONTENT_AR := "شكرا لك على ملاحظاتك. فريقنا التقني يعمل على مشكلتك ونتوقع الرد خلال 24 ساعة."
  const PRODUCT_NAME_ZH := "产品介绍模板"
  const PRODUCT_NAME_EN := "Product Introduction Template"
  const PRODUCT_NAME_AR := "قالب تقديم المنتج"
  const PRODUCT_DESCRIPTION_ZH := "用于介绍产品功能的模板"
  const PRODUCT_DESCRIPTION_EN := "Template for introducing product features"
  const PRODUCT_DESCRIPTION_AR := "قالب لتقديم ميزات المنتج"
  const PRODUCT_CONTENT_ZH := "我们的产品具有以下特点：1. 智能化操作 2. 高效性能 3. 用户友好界面 4. 安全可靠"
  const PRODUCT_CONTENT_EN := "Our product has the following features: 1. Intelligent operation 2. High efficiency 3. User-friendly interface 4. Safe and reliable"
  const PRODUCT_CONTENT_AR := "منتجنا له الميزات التالية: 1. تشغيل ذكي 2. كفاءة عالية 3. واجهة سهلة الاستخدام 4. آمن وموثوق"
  const AVATAR_1 := "https://images.unsplash.com/photo-1494790108755-2616b612b742?w=150&h=150&fit=crop&crop=face"
  const AVATAR_2 := "https://images.unsplash.com/photo-1472099645785-5658abf4ff4e?w=150&h=150&fit=crop&crop=face"
  const AVATAR_3 := "https://images.unsplash.com/photo-1438761681033-6461ffad8d80?w=150&h=150&fit=crop&crop=face"
  const AVATAR_4 := "https://images.unsplash.com/photo-1507003211169-0a1dd7228f2d?w=150&h=150&fit=crop&crop=face"
  const AVATAR_5 := "https://images.unsplash.com/photo-1534528741775-53994a69daeb?w=150&h=150&fit=crop&crop=face"
  const AVATAR_6 := "https://images.unsplash.com/photo-1560250097-0b93528c311a?w=150&h=150&fit=crop&crop=face"
  const XIAOYA_NICKNAME: MultiLangText := PerLang("小雅助手", "Xiaoya Assistant", "مساعد شياويا")
  const XIAOYA_REGION: MultiLangText := PerLang("北京", "Beijing", "بكين")
  const XIAOYA_PROFESSION: MultiLangText := PerLang("AI助手", "AI Assistant", "مساعد ذكي")
  const XIAOYA_TAGS: Tags := PerLang(
    ["友善", "专业", "高效"],
    ["Friendly", "Professional", "Efficient"],
    ["ودود", "محترف", "فعال"])
  const TOM_NICKNAME: MultiLangText := PerLang("技术专家Tom", "Tech Expert Tom", "خبير التكنولوجيا توم")
  const TOM_REGION: MultiLangText := PerLang("上海", "Shanghai", "شنغهاي")
  const TOM_PROFESSION: MultiLangText := PerLang("技术顾问", "Technical Consultant", "مستشار تقني")
  const TOM_TAGS: Tags := PerLang(
    ["技术", "编程", "架构", "专业"],
    ["Technology", "Programming", "Architecture", "Professional"],
    ["تكنولوجيا", "برمجة", "هندسة معمارية", "محترف"])
  const LILY_NICKNAME: MultiLangText := PerLang("创意设计师Lily", "Creative Designer Lily", "المصممة الإبداعية ليلي")
  const LILY_REGION: MultiLangText := PerLang("深圳", "Shenzhen", "شنتشن")
  const LILY_PROFESSION: MultiLangText := PerLang("UI/UX设计师", "UI/UX Designer", "مصمم واجهة المستخدم")
  const LILY_TAGS: Tags := PerLang(
    ["创意", "设计", "美学", "用户体验"],
    ["Creative", "Design", "Aesthetic", "User Experience"],
    ["إبداعي", "تصميم", "جمالي", "تجربة المستخدم"])

  /** `new Date(d).toISOString()` for a `YYYY-MM-DD` string. */
  function IsoDate(d: string): (r: string)
    ensures StartsWith(r, d) && |r| == |d| + 14
  {
    d + "T00:00:00.000Z"
  }

  /** The first seed character: 小雅, a public general assistant. */
  function Xiaoya(id: string, botSuffix: string): (c: Character)
    ensures c.id == id && c.botId == "bot_" + botSuffix
    ensures c.nickname == XIAOYA_NICKNAME
    ensures c.permission == Public && c.age == 25
    ensures |c.displayImages| == 2 && Seqs.NoDup(c.whitelist)
  {
    Character(
      id,
      "bot_" + botSuffix,
      XIAOYA_AVATAR,
      Female,
      25,
      Public,
      XIAOYA_NICKNAME,
      XIAOYA_REGION,
      XIAOYA_PROFESSION,
      PerLang(XIAOYA_INTRODUCTION_ZH, XIAOYA_INTRODUCTION_EN, XIAOYA_INTRODUCTION_AR),
      XIAOYA_TAGS,
      PerLang(XIAOYA_GREETING_ZH, XIAOYA_GREETING_EN, XIAOYA_GREETING_AR),
      [XIAOYA_IMAGE_1, XIAOYA_IMAGE_2],
      XIAOYA_SYSTEM_PROMPT,
      ["13800138000", "13900139000"],
      IsoDate("2024-01-15"),
      IsoDate("2024-01-20"))
  }

  /** The second seed character: Tom, a private technical consultant. */
  function Tom(id: string, botSuffix: string): (c: Character)
    ensures c.id == id && c.botId == "bot_" + botSuffix
    ensures c.nickname == TOM_NICKNAME
    ensures c.permission == Private && c.age == 30
    ensures |c.displayImages| == 2 && Seqs.NoDup(c.whitelist)
  {
    Character(
      id,
      "bot_" + botSuffix,
      TOM_AVATAR,
      Male,
      30,
      Private,
      TOM_NICKNAME,
      TOM_REGION,
      TOM_PROFESSION,
      PerLang(TOM_INTRODUCTION_ZH, TOM_INTRODUCTION_EN, TOM_INTRODUCTION_AR),
      TOM_TAGS,
      PerLang(TOM_GREETING_ZH, TOM_GREETING_EN, TOM_GREETING_AR),
      [TOM_IMAGE_1, TOM_IMAGE_2],
      TOM_SYSTEM_PROMPT,
      ["13700137000", "13600136000", "13500135000"],
      IsoDate("2024-01-10"),
      IsoDate("2024-01-18"))
  }

  /** The third seed character: Lily, a public UI/UX designer. */
  function Lily(id: string, botSuffix: string): (c: Character)
    ensures c.id == id && c.botId == "bot_" + botSuffix
    ensures c.nickname == LILY_NICKNAME
    ensures c.permission == Public && c.age == 28
    ensures |c.displayImages| == 2 && Seqs.NoDup(c.whitelist)
  {
    Character(
      id,
      "bot_" + botSuffix,
      LILY_AVATAR,
      Female,
      28,
      Public,
      LILY_NICKNAME,
      LILY_REGION,
      LILY_PROFESSION,
      PerLang(LILY_INTRODUCTION_ZH, LILY_INTRODUCTION_EN, LILY_INTRODUCTION_AR),
      LILY_TAGS,
      PerLang(LILY_GREETING_ZH, LILY_GREETING_EN, LILY_GREETING_AR),
      [LILY_IMAGE_1, LILY_IMAGE_2],
      LILY_SYSTEM_PROMPT,
      [],
      IsoDate("2024-01-12"),
      IsoDate("2024-01-22"))
  }

  /** `generateMockCharacters()`, given the three generated ids and the three generated bot-id tails. */
  function SeedCharacters(ids: seq<string>, botSuffixes: seq<string>): (r: seq<Character>)
    requires |ids| == 3 && |botSuffixes| == 3
    ensures |r| == 3
    ensures forall i :: 0 <= i < |r| ==> r[i].id == ids[i] && r[i].botId == "bot_" + botSuffixes[i]
    ensures forall i :: 0 <= i < |r| ==> StartsWith(r[i].botId, "bot_")
    ensures forall i :: 0 <= i < |r| ==> (r[i].permission == Private <==> i == 1)
    ensures forall i :: 0 <= i < |r| ==> Constants.AgeAccepted(r[i].age)
    ensures forall i :: 0 <= i < |r| ==> |r[i].displayImages| <= Constants.MAX_DISPLAY_IMAGES
    ensures forall i :: 0 <= i < |r| ==> Seqs.NoDup(r[i].whitelist)
  {
    [Xiaoya(ids[0], botSuffixes[0]), Tom(ids[1], botSuffixes[1]), Lily(ids[2], botSuffixes[2])]
  }

  /** The active welcome-message seed template. */
  function WelcomeTemplate(id: string): (t: Template)
    ensures t.id == id && t.isActive == true
  {
    Template(
      id,
      PerLang(WELCOME_NAME_ZH, WELCOME_NAME_EN, WELCOME_NAME_AR),
      PerLang(WELCOME_DESCRIPTION_ZH, WELCOME_DESCRIPTION_EN, WELCOME_DESCRIPTION_AR),
      PerLang(WELCOME_CONTENT_ZH, WELCOME_CONTENT_EN, WELCOME_CONTENT_AR),
      "welcome",
      true,
      IsoDate("2024-01-08"),
      IsoDate("2024-01-15"))
  }

  /** The active technical-support seed template. */
  function SupportTemplate(id: string): (t: Template)
    ensures t.id == id && t.isActive == true
  {
    Template(
      id,
      PerLang(SUPPORT_NAME_ZH, SUPPORT_NAME_EN, SUPPORT_NAME_AR),
      PerLang(SUPPORT_DESCRIPTION_ZH, SUPPORT_DESCRIPTION_EN, SUPPORT_DESCRIPTION_AR),
      PerLang(SUPPORT_CONTENT_ZH, SUPPORT_CONTENT_EN, SUPPORT_CONTENT_AR),
      "support",
      true,
      IsoDate("2024-01-10"),
      IsoDate("2024-01-12"))
  }

  /** The inactive product-introduction seed template. */
  function ProductTemplate(id: string): (t: Template)
    ensures t.id == id && t.isActive == false
  {
    Template(
      id,
      PerLang(PRODUCT_NAME_ZH, PRODUCT_NAME_EN, PRODUCT_NAME_AR),
      PerLang(PRODUCT_DESCRIPTION_ZH, PRODUCT_DESCRIPTION_EN, PRODUCT_DESCRIPTION_AR),
      PerLang(PRODUCT_CONTENT_ZH, PRODUCT_CONTENT_EN, PRODUCT_CONTENT_AR),
      "product",
      false,
      IsoDate("2024-01-05"),
      IsoDate("2024-01-20"))
  }

  /** `generateMockTemplates()`, given the three generated ids. */
  function SeedTemplates(ids: seq<string>): (r: seq<Template>)
    requires |ids| == 3
    ensures |r| == 3
    ensures forall i :: 0 <= i < |r| ==> r[i].id == ids[i]
    ensures forall i :: 0 <= i < |r| ==> (r[i].isActive <==> i != 2)
    ensures forall i :: 0 <= i < |r| ==> Constants.IsOptionValue(Constants.TEMPLATE_CATEGORIES, r[i].category)
  {
    var r := [WelcomeTemplate(ids[0]), SupportTemplate(ids[1]), ProductTemplate(ids[2])];
    assert Constants.TEMPLATE_CATEGORIES[0].value == r[0].category;
    assert Constants.TEMPLATE_CATEGORIES[1].value == r[1].category;
    assert Constants.TEMPLATE_CATEGORIES[2].value == r[2].category;
    r
  }

  /** `generateMockConfig()`. */
  function SeedConfig(): (r: Config)
    ensures |r.defaultAvatars| == 6
    ensures Seqs.NoDup(r.defaultAvatars)
  {
    Config([
      AVATAR_1,
      AVATAR_2,
      AVATAR_3,
      AVATAR_4,
      AVATAR_5,
      AVATAR_6
    ])
  }

  /** 小雅 was last updated after she was created (ISO strings compare as their dates do). */
  lemma XiaoyaTimestampsOrdered(id: string, botSuffix: string)
    ensures Less(Xiaoya(id, botSuffix).createdAt, Xiaoya(id, botSuffix).updatedAt)
  {
    LessAt(Xiaoya(id, botSuffix).createdAt, Xiaoya(id, botSuffix).updatedAt, 8);
  }

  lemma TomTimestampsOrdered(id: string, botSuffix: string)
    ensures Less(Tom(id, botSuffix).createdAt, Tom(id, botSuffix).updatedAt)
  {
    LessAt(Tom(id, botSuffix).createdAt, Tom(id, botSuffix).updatedAt, 9);
  }

  lemma LilyTimestampsOrdered(id: string, botSuffix: string)
    ensures Less(Lily(id, botSuffix).createdAt, Lily(id, botSuffix).updatedAt)
  {
    LessAt(Lily(id, botSuffix).createdAt, Lily(id, botSuffix).updatedAt, 8);
  }

  /** Every seed character was last updated after it was created. */
  lemma SeedCharacterTimestampsOrdered(ids: seq<string>, botSuffixes: seq<string>)
    requires |ids| == 3 && |botSuffixes| == 3
    ensures forall i :: 0 <= i < 3 ==> Less(SeedCharacters(ids, botSuffixes)[i].createdAt, SeedCharacters(ids, botSuffixes)[i].updatedAt)
  {
    XiaoyaTimestampsOrdered(ids[0], botSuffixes[0]);
    TomTimestampsOrdered(ids[1], botSuffixes[1]);
    LilyTimestampsOrdered(ids[2], botSuffixes[2]);
  }

  lemma WelcomeTemplateTimestampsOrdered(id: string)
    ensures Less(WelcomeTemplate(id).createdAt, WelcomeTemplate(id).updatedAt)
  {
    LessAt(WelcomeTemplate(id).createdAt, WelcomeTemplate(id).updatedAt, 8);
  }

  lemma SupportTemplateTimestampsOrdered(id: string)
    ensures Less(SupportTemplate(id).createdAt, SupportTemplate(id).updatedAt)
  {
    LessAt(SupportTemplate(id).createdAt, SupportTemplate(id).updatedAt, 9);
  }

  lemma ProductTemplateTimestampsOrdered(id: string)
    ensures Less(ProductTemplate(id).createdAt, ProductTemplate(id).updatedAt)
  {
    LessAt(ProductTemplate(id).createdAt, ProductTemplate(id).updatedAt, 8);
  }

  /** Every seed template was last updated after it was created. */
  lemma SeedTemplateTimestampsOrdered(ids: seq<string>)
    requires |ids| == 3
    ensures forall i :: 0 <= i < 3 ==> Less(SeedTemplates(ids)[i].createdAt, SeedTemplates(ids)[i].updatedAt)
  {
    WelcomeTemplateTimestampsOrdered(ids[0]);
    SupportTemplateTimestampsOrdered(ids[1]);
    ProductTemplateTimestampsOrdered(ids[2]);
  }

  /** The seed characters, written to storage, pass the validator the store reads them back with. */
  lemma SeedCharactersAreValid(ids: seq<string>, botSuffixes: seq<string>)
    requires |ids| == 3 && |botSuffixes| == 3
    ensures Persistence.IsValidCharactersArray(Persistence.CharactersToJson(SeedCharacters(ids, botSuffixes)))
  {
    Persistence.WrittenCharactersAreValid(SeedCharacters(ids, botSuffixes));
  }

  /** So do the seed templates. */
  lemma SeedTemplatesAreValid(ids: seq<string>)
    requires |ids| == 3
    ensures Persistence.IsValidTemplatesArray(Persistence.TemplatesToJson(SeedTemplates(ids)))
  {
    Persistence.WrittenTemplatesAreValid(SeedTemplates(ids));
  }

  /** And so does the seed configuration. */
  lemma SeedConfigIsValid()
    ensures Persistence.IsValidConfig(Persistence.ConfigToJson(SeedConfig()))
  {
    Persistence.WrittenValuesAreValid([], [], SeedConfig());
  }
}
