/**
 * The literal tables of src/utils/constants.ts and a recognizer for the
 * phone pattern `^(\+\d{1,3}[- ]?)?\d{10,15}$`, proved equal to the
 * pattern's meaning.
 */
module Constants {
  import opened Wrappers
  import opened Types
  import opened Text
  import Seqs

  // LANGUAGES

  datatype LanguageOption = LanguageOption(key: string, caption: string, flag: string)

  const LANGUAGES: seq<LanguageOption> := [
    LanguageOption("zh", "中文", "🇨🇳"),
    LanguageOption("en", "English", "🇺🇸"),
    LanguageOption("ar", "العربية", "🇸🇦")
  ]

  /** The language table lists exactly the three editing languages, in the order zh, en, ar. */
  lemma LanguagesAreTheEditingLanguages()
    ensures |LANGUAGES| == 3
    ensures LANGUAGES[0].key == Zh.Key() && LANGUAGES[1].key == En.Key() && LANGUAGES[2].key == Ar.Key()
    ensures forall l: Lang :: exists i :: 0 <= i < |LANGUAGES| && LANGUAGES[i].key == l.Key()
  {
    forall l: Lang ensures exists i :: 0 <= i < |LANGUAGES| && LANGUAGES[i].key == l.Key() {
      match l
      case Zh => assert LANGUAGES[0].key == l.Key();
      case En => assert LANGUAGES[1].key == l.Key();
      case Ar => assert LANGUAGES[2].key == l.Key();
    }
  }

  // GENDER_OPTIONS, PERMISSION_OPTIONS, TEMPLATE_CATEGORIES

  datatype SelectOption = SelectOption(value: string, caption: string)

  const GENDER_OPTIONS: seq<SelectOption> := [
    SelectOption("male", "男性"),
    SelectOption("female", "女性"),
    SelectOption("other", "其他")
  ]

  const PERMISSION_OPTIONS: seq<SelectOption> := [
    SelectOption("public", "公开"),
    SelectOption("private", "私有")
  ]

  const TEMPLATE_CATEGORIES: seq<SelectOption> := [
    SelectOption("welcome", "欢迎消息"),
    SelectOption("support", "技术支持"),
    SelectOption("product", "产品介绍"),
    SelectOption("faq", "常见问题"),
    SelectOption("other", "其他")
  ]

  /** `value` is one of the option values of `options`. */
  predicate IsOptionValue(options: seq<SelectOption>, value: string) {
    exists i :: 0 <= i < |options| && options[i].value == value
  }

  // UPLOAD_CONFIG

  const MAX_FILE_SIZE: nat := 5 * 1024 * 1024
  const ACCEPTED_IMAGE_TYPES: seq<string> := ["image/jpeg", "image/jpg", "image/png", "image/gif", "image/webp"]
  const MAX_DISPLAY_IMAGES: nat := 6

  /** The upload limits: 5 MiB, five distinct image types, six display images. */
  lemma UploadConfigValues()
    ensures MAX_FILE_SIZE == 5242880
    ensures |ACCEPTED_IMAGE_TYPES| == 5 && Seqs.NoDup(ACCEPTED_IMAGE_TYPES)
    ensures MAX_DISPLAY_IMAGES == 6
  {
  }

  // VALIDATION_RULES

  /** The groups `VALIDATION_RULES` defines; any other key reads `undefined`. */
  const VALIDATION_RULE_GROUPS: seq<string> := ["CHARACTER", "TEMPLATE", "PHONE"]

  /** A text field's rule: whether it is required, and its maximum length when it has one. */
  datatype FieldRule = FieldRule(required: bool, max: Option<nat>)

  const NICKNAME_RULE := FieldRule(true, None)
  const REGION_RULE := FieldRule(true, None)
  const PROFESSION_RULE := FieldRule(true, None)
  const INTRODUCTION_RULE := FieldRule(true, None)
  const GREETING_RULE := FieldRule(false, None)
  const SYSTEM_PROMPT_RULE := FieldRule(true, None)
  const TEMPLATE_NAME_RULE := FieldRule(true, None)
  const TEMPLATE_CONTENT_MAX: nat := 15000
  const TEMPLATE_CONTENT_RULE := FieldRule(true, Some(TEMPLATE_CONTENT_MAX))

  /** How antd applies a rule to a text field: a required one must be present and non-empty, and a value may not exceed `max`. */
  predicate RuleHolds(rule: FieldRule, v: Option<string>) {
    (rule.required ==> v.Some? && v.value != "")
    && (rule.max.Some? && v.Some? ==> |v.value| <= rule.max.value)
  }

  const AGE_MIN: int := 1
  const AGE_MAX: int := 200

  /** The age rule: a number between 1 and 200 inclusive. */
  predicate AgeAccepted(age: int) {
    AGE_MIN <= age <= AGE_MAX
  }

  /** `\d{10,15}`: ten to fifteen decimal digits. */
  predicate NationalNumber(s: string) {
    10 <= |s| <= 15 && AllDigits(s)
  }

  /** `[- ]`. */
  predicate IsSeparator(c: char) {
    c == '-' || c == ' '
  }

  /**
   * The optional group `\+\d{1,3}[- ]?` matched with `k` country-code
   * digits and `m` separator characters, followed by `\d{10,15}` to the end.
   */
  ghost predicate GroupThenNumber(s: string, k: nat, m: nat) {
    1 <= k <= 3 && m <= 1 && 1 + k + m <= |s|
    && s[0] == '+'
    && AllDigits(s[1..1 + k])
    && (m == 1 ==> IsSeparator(s[1 + k]))
    && NationalNumber(s[1 + k + m..])
  }

  /** What `^(\+\d{1,3}[- ]?)?\d{10,15}$` matches: the group absent, or present in one of its readings. */
  ghost predicate PhonePattern(s: string) {
    NationalNumber(s) || exists k: nat, m: nat :: GroupThenNumber(s, k, m)
  }

  /** The length of the run of digits at the start of `s`. */
  function DigitRun(s: string): (n: nat)
    ensures n <= |s| && AllDigits(s[..n])
    ensures n < |s| ==> !IsDigit(s[n])
  {
    if s == [] || !IsDigit(s[0]) then 0
    else
      var n := 1 + DigitRun(s[1..]);
      assert s[..n] == [s[0]] + s[1..][..n - 1];
      n
  }

  /**
   * `VALIDATION_RULES.PHONE.PATTERN.test(s)`, decided in one pass: after a `+`,
   * either only digits follow (then 11 to 18 of them split into a 1-3 digit
   * code and a 10-15 digit number), or the leading digit run is the code and
   * must be followed by one separator and the number.
   */
  function MatchesPhonePattern(s: string): (r: bool)
    ensures r <==> PhonePattern(s)
  {
    if |s| > 0 && s[0] == '+' then
      var rest := s[1..];
      var n := DigitRun(rest);
      var r := if n == |rest| then 11 <= n <= 18
               else 1 <= n <= 3 && IsSeparator(rest[n]) && NationalNumber(rest[n + 1..]);
      PlusCases(s, n, r);
      r
    else
      NoGroupWithoutPlus(s);
      NationalNumber(s)
  }

  /** Without a leading `+` the optional group cannot match. */
  lemma NoGroupWithoutPlus(s: string)
    requires |s| == 0 || s[0] != '+'
    ensures forall k: nat, m: nat :: !GroupThenNumber(s, k, m)
  {
    forall k: nat, m: nat | 1 + k + m <= |s| ensures !GroupThenNumber(s, k, m) {
      assert s[0] != '+';
    }
  }

  /** The case analysis behind `MatchesPhonePattern` for a string that starts with `+`. */
  lemma PlusCases(s: string, n: nat, r: bool)
    requires |s| > 0 && s[0] == '+'
    requires n == DigitRun(s[1..])
    requires r == if n == |s| - 1 then 11 <= n <= 18
                  else 1 <= n <= 3 && IsSeparator(s[1..][n]) && NationalNumber(s[1..][n + 1..])
    ensures r <==> PhonePattern(s)
  {
    var rest := s[1..];
    assert !NationalNumber(s) by { assert !IsDigit(s[0]); }
    if n == |rest| {
      assert AllDigits(rest) by { assert rest[..n] == rest; }
      if r {
        var k: nat := if n - 15 > 1 then n - 15 else 1;
        assert GroupThenNumber(s, k, 0) by {
          assert s[1..1 + k] == rest[..k];
          assert s[1 + k..] == rest[k..];
        }
      } else {
        assert forall k: nat, m: nat :: !GroupThenNumber(s, k, m);
      }
    } else {
      if r {
        assert GroupThenNumber(s, n, 1) by {
          assert s[1..1 + n] == rest[..n];
          assert s[1 + n] == rest[n];
          assert s[1 + n + 1..] == rest[n + 1..];
        }
      } else {
        assert forall k: nat, m: nat :: !GroupThenNumber(s, k, m);
      }
    }
  }

  // DEFAULT_VALUES

  const DEFAULT_AGE: int := 25
  const DEFAULT_GENDER: Gender := Female
  const DEFAULT_PERMISSION: Permission := Public
  const DEFAULT_AVATAR := "https://images.unsplash.com/photo-1494790108755-2616b612b742?w=150&h=150&fit=crop&crop=face"
  const DEFAULT_TEMPLATE_CATEGORY := "other"
  const DEFAULT_TEMPLATE_IS_ACTIVE := true

  /** The create-mode defaults are themselves valid choices: the category is listed, the age passes its rule. */
  lemma DefaultsAreListed()
    ensures IsOptionValue(TEMPLATE_CATEGORIES, DEFAULT_TEMPLATE_CATEGORY)
    ensures IsOptionValue(GENDER_OPTIONS, DEFAULT_GENDER.Key())
    ensures IsOptionValue(PERMISSION_OPTIONS, DEFAULT_PERMISSION.Key())
    ensures AgeAccepted(DEFAULT_AGE)
  {
    assert TEMPLATE_CATEGORIES[4].value == DEFAULT_TEMPLATE_CATEGORY;
    assert GENDER_OPTIONS[1].value == DEFAULT_GENDER.Key();
    assert PERMISSION_OPTIONS[0].value == DEFAULT_PERMISSION.Key();
  }

  /** Every gender and every permission has its option, under its own key. */
  lemma OptionsCoverEnumerations(g: Gender, p: Permission)
    ensures IsOptionValue(GENDER_OPTIONS, g.Key())
    ensures IsOptionValue(PERMISSION_OPTIONS, p.Key())
  {
    match g {
      case Male => assert GENDER_OPTIONS[0].value == g.Key();
      case Female => assert GENDER_OPTIONS[1].value == g.Key();
      case Other => assert GENDER_OPTIONS[2].value == g.Key();
    }
    match p {
      case Public => assert PERMISSION_OPTIONS[0].value == p.Key();
      case Private => assert PERMISSION_OPTIONS[1].value == p.Key();
    }
  }

  // MENU_ITEMS

  datatype MenuItem = MenuItem(key: string, caption: string, icon: string, path: string)

  const MENU_ITEMS: seq<MenuItem> := [
    MenuItem("characters", "AI角色管理", "UserOutlined", "/characters"),
    MenuItem("templates", "模板管理", "FileTextOutlined", "/templates"),
    MenuItem("config", "通用配置", "SettingOutlined", "/config")
  ]

  /** Menu keys are distinct and every item's path is `'/' + key`. */
  lemma MenuItemsWellFormed()
    ensures forall i, j :: 0 <= i < j < |MENU_ITEMS| ==> MENU_ITEMS[i].key != MENU_ITEMS[j].key
    ensures forall i :: 0 <= i < |MENU_ITEMS| ==> MENU_ITEMS[i].path == "/" + MENU_ITEMS[i].key
  {
  }
}
