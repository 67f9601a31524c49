# AI character admin console — a Dafny model of its state logic

The console is a single-page admin application for AI characters, message
templates and a shared configuration (the list of default avatars). It has
no backend. One data store holds three collections in memory and writes
each one to the browser's local storage after every change. An
authentication context keeps a mock session in local storage. List pages
filter the collections by a search term. Form pages edit one record at a
time in one of three languages (Chinese, English and Arabic). Dialogs and
widgets edit a character's phone whitelist and upload images.

This project models that state logic:

- **Records**: characters, templates, the configuration and their
  per-language texts (`Types`). The seed data is in `MockData`, and the
  fixed option lists, limits and the phone pattern are in `Constants`.
- **Persistence**: local storage is a string-to-string map
  (`Storage.LocalStorage`). JSON is an abstract codec (`Json.Codec`), and
  its round trip is a hypothesis (`Faithful`). Records are written to and
  read back from JSON values. The shape validators are applied on load,
  with a fallback to the seed. A one-time cleanup is keyed on a version
  marker (`Persistence`).
- **Data store** (`DataContext.DataStore`): a class whose fields are the
  three collections. Every mutator saves the collection it changed and
  leaves the others alone. Pure functions over the collections specify the
  mutators, and lemmas about those functions state what the store
  guarantees: id uniqueness is preserved, an unknown id is a no-op, and a
  remount restores the saved state.
- **Session** (`AuthContext.Session`): restoring a session, login with the
  one hard-coded account, and logout.
- **Pages**:
  - the two forms (`CharacterForm`, `TemplateForm`): projection of a
    record into the single-language form, the submit payload that merges
    the edited language into the stored texts, and the effects that run on
    mount and on a language switch;
  - the list filters (`CharacterList`, `TemplateList`);
  - the whitelist dialog (`WhitelistModal`);
  - the image picker (`ImageUpload`) and the avatar settings (`ConfigPage`);
  - the menu and logout of the layout (`Layout`);
  - the route table with its guards (`App`).

Clocks, id generators and `URL.createObjectURL` are parameters. A method
that adds a record takes the new id, the bot-id suffix and the timestamps
it would have read. `Seqs`, `Text` and `Wrappers` are generic helpers
(filter, occurrence counts, subsequences, ASCII lower-casing, JavaScript
whitespace trimming, decimal digits).

Two behaviours of the code are worth stating on their own:

- Switching the form language does not fold the unsaved edits of the
  previous language back into the record. The mount effect depends on
  `currentLanguage`, so a switch in edit mode re-projects every field from
  the stored record, and unsaved edits are dropped. A switch in create
  mode re-applies the defaults.
  `CharacterForm.CharacterFormPage.SwitchLanguage` and
  `TemplateForm.TemplateFormPage.SwitchLanguage` state this behaviour.
- The avatar upload refuses only sizes greater than the limit
  (`file.size > MAX_FILE_SIZE`), so a file of exactly 5 MiB is accepted
  (`ImageUpload.CheckBoundaries`).

## Model

| member | source | states |
|---|---|---|
| Constants.LanguagesAreTheEditingLanguages | src/utils/constants.ts:2-6 | the language list has exactly the keys zh, en, ar in that order, and every editing language has an entry |
| Constants.OptionsCoverEnumerations | src/utils/constants.ts:9-19 | every gender and every permission of the record type is one of the select options |
| Constants.UploadConfigValues | src/utils/constants.ts:39-43 | the size limit is 5 × 1024 × 1024 bytes, there are five distinct accepted image types, and at most six display images |
| Constants.DigitRun | src/utils/constants.ts:71 | the length of the leading run of digits: everything before it is a digit, and the next character is not |
| Constants.MatchesPhonePattern | src/utils/constants.ts:71 | the executable check agrees on every string with the reading of `^(\+\d{1,3}[- ]?)?\d{10,15}$` as a predicate |
| Constants.NoGroupWithoutPlus | src/utils/constants.ts:71 | without a leading `+` the optional country-code group matches in no reading |
| Constants.PlusCases | src/utils/constants.ts:71 | for a string that starts with `+`, the pattern holds exactly when the digits are 11 to 18 with no separator, or 1 to 3 country digits, one separator and 10 to 15 digits |
| Constants.DefaultsAreListed | src/utils/constants.ts:77-88 | the default category, gender and permission are listed options, and the default age passes the age rule |
| Constants.MenuItemsWellFormed | src/utils/constants.ts:91-109 | the menu keys are distinct, and each entry's path is `/` followed by its key |
| Types.PerLang.Set | src/pages/CharacterForm.tsx:92-101 | setting one language yields that value for it and keeps every other language |
| Storage.LocalStorage.GetItem | src/contexts/DataContext.tsx:47 | `getItem` returns the stored string exactly when the key is present, `null` otherwise |
| Storage.LocalStorage.SetItem | src/contexts/DataContext.tsx:131 | `setItem` stores the string under the key and changes no other key |
| Storage.LocalStorage.RemoveItem | src/contexts/DataContext.tsx:94-96 | `removeItem` removes exactly that key |
| MockData.IsoDate | src/utils/mockData.ts:45-46 | `new Date(d).toISOString()` of a date-time starts with that date-time and adds a 14-character suffix |
| MockData.Xiaoya | src/utils/mockData.ts:14-47 | the first seed character: the given id, a bot id `bot_` + suffix, public, age 25, two display images, a duplicate-free whitelist |
| MockData.Tom | src/utils/mockData.ts:48-81 | the second seed character: private, age 30, two display images, a duplicate-free whitelist |
| MockData.Lily | src/utils/mockData.ts:82-115 | the third seed character: public, age 28, two display images, a duplicate-free whitelist |
| MockData.SeedCharacters | src/utils/mockData.ts:12-117 | three characters with the given ids, all bot ids prefixed `bot_`, private exactly at index 1, every age accepted by the age rule, at most six display images, duplicate-free whitelists |
| MockData.WelcomeTemplate | src/utils/mockData.ts:122-139 | the welcome template is active |
| MockData.SupportTemplate | src/utils/mockData.ts:140-157 | the support template is active |
| MockData.ProductTemplate | src/utils/mockData.ts:158-175 | the product template is inactive |
| MockData.SeedTemplates | src/utils/mockData.ts:120-177 | three templates with the given ids, active exactly except the third, each category a listed option |
| MockData.SeedConfig | src/utils/mockData.ts:180-191 | six distinct default avatars |
| MockData.XiaoyaTimestampsOrdered | src/utils/mockData.ts:45-46 | created before updated |
| MockData.TomTimestampsOrdered | src/utils/mockData.ts:79-80 | created before updated |
| MockData.LilyTimestampsOrdered | src/utils/mockData.ts:113-114 | created before updated |
| MockData.SeedCharacterTimestampsOrdered | src/utils/mockData.ts:12-117 | every seed character was created before it was last updated (ISO strings compare in time order) |
| MockData.WelcomeTemplateTimestampsOrdered | src/utils/mockData.ts:137-138 | created before updated |
| MockData.SupportTemplateTimestampsOrdered | src/utils/mockData.ts:155-156 | created before updated |
| MockData.ProductTemplateTimestampsOrdered | src/utils/mockData.ts:173-174 | created before updated |
| MockData.SeedTemplateTimestampsOrdered | src/utils/mockData.ts:120-177 | every seed template was created before it was last updated |
| MockData.SeedCharactersAreValid | src/utils/mockData.ts:12-117 | the seed characters, written as JSON, pass the store's character validator |
| MockData.SeedTemplatesAreValid | src/utils/mockData.ts:120-177 | the seed templates, written as JSON, pass the template validator |
| MockData.SeedConfigIsValid | src/utils/mockData.ts:180-191 | the seed configuration, written as JSON, passes the configuration validator |
| Persistence.ListToJson | src/contexts/DataContext.tsx:129-135 | a list is written as a JSON array of the same length |
| Persistence.ListFromJson | src/contexts/DataContext.tsx:45-63 | a list read back has one element per array item |
| Persistence.ListRoundTrip | src/contexts/DataContext.tsx:129-135 | reading back a written list gives the list, when each element round-trips |
| Persistence.StringsRoundTrip | src/contexts/DataContext.tsx:129-135 | a list of strings round-trips |
| Persistence.TextRoundTrip | src/contexts/DataContext.tsx:129-135 | a multi-language text round-trips |
| Persistence.TagsRoundTrip | src/contexts/DataContext.tsx:129-135 | per-language tags round-trip |
| Persistence.CharacterRoundTrip | src/contexts/DataContext.tsx:129-135 | a character written to JSON reads back as the same character |
| Persistence.TemplateRoundTrip | src/contexts/DataContext.tsx:129-135 | a template written to JSON reads back as the same template |
| Persistence.ConfigRoundTrip | src/contexts/DataContext.tsx:129-135 | the configuration written to JSON reads back as the same configuration |
| Persistence.CharactersRoundTrip | src/contexts/DataContext.tsx:129-135 | the character collection round-trips |
| Persistence.TemplatesRoundTrip | src/contexts/DataContext.tsx:129-135 | the template collection round-trips |
| Persistence.CharactersValidatorExactly | src/contexts/DataContext.tsx:66-72 | `isValidCharactersArray` holds exactly for arrays whose items are all JSON objects (not `null`, which `item &&` excludes, and not arrays) with a string `id` and a string `botId`; the empty array passes |
| Persistence.TemplatesValidatorExactly | src/contexts/DataContext.tsx:74-80 | `isValidTemplatesArray` holds exactly for arrays whose items are all objects with a string `id` and a `name` of type `object`, which includes `null` and arrays |
| Persistence.ConfigValidatorExactly | src/contexts/DataContext.tsx:82-84 | `isValidConfig` holds exactly for objects whose `defaultAvatars` is an array |
| Persistence.IsValidCharactersArray | src/contexts/DataContext.tsx:65-71 | only an array can pass, and the empty array does |
| Persistence.IsValidTemplatesArray | src/contexts/DataContext.tsx:73-79 | only an array can pass, and the empty array does |
| Persistence.IsValidConfig | src/contexts/DataContext.tsx:81-83 | only an object with a `defaultAvatars` member can pass |
| Persistence.WrittenCharactersAreValid | src/contexts/DataContext.tsx:66-72 | whatever character collection the store writes passes the validator on the next load |
| Persistence.WrittenTemplatesAreValid | src/contexts/DataContext.tsx:74-80 | whatever template collection the store writes passes the validator |
| Persistence.WrittenValuesAreValid | src/contexts/DataContext.tsx:66-84 | all three written values pass their validators |
| Persistence.SafeGet | src/contexts/DataContext.tsx:45-63 | `safeGetFromStorage` returns the parsed stored value when there is one that parses and passes the validator (if any), and the default otherwise |
| Persistence.SafeGetAfterSave | src/contexts/DataContext.tsx:45-63 | a value saved and then read with a validator it satisfies is returned unchanged |
| Persistence.LoadCharacters | src/contexts/DataContext.tsx:104-110 | the seed unless the stored characters are present, parse and pass the validator; then the records read from them (the seed if they are incomplete) |
| Persistence.LoadTemplates | src/contexts/DataContext.tsx:112-118 | the seed unless the stored templates are accepted; then the records read from them |
| Persistence.LoadConfig | src/contexts/DataContext.tsx:120-126 | the seed unless the stored configuration is accepted; then the configuration read from it |
| Persistence.LoadFallsBackToSeed | src/contexts/DataContext.tsx:104-126 | a missing, unparsable or invalid stored collection loads as the seed |
| Persistence.ReloadAfterSave | src/contexts/DataContext.tsx:104-135 | after the three collections are saved, loading gives exactly those collections |
| Persistence.Cleanup | src/contexts/DataContext.tsx:88-101 | the version marker is `1.0.0` afterwards; with the marker already set nothing changes; otherwise the three data keys are removed; other keys are kept, and no key is added except the marker |
| Persistence.CleanupIdempotent | src/contexts/DataContext.tsx:88-101 | a second cleanup changes nothing |
| Persistence.ReloadAfterCleanup | src/contexts/DataContext.tsx:88-126 | when the version marker was out of date, the first load after cleanup gives the seed data |
| DataContext.NewCharacter | src/contexts/DataContext.tsx:138-145 | the new character carries the submitted data, the given id, a bot id `bot_` + the generated suffix, and both timestamps |
| DataContext.ApplyCharacterPatch | src/contexts/DataContext.tsx:154-160 | every field, `id`, `botId` and `createdAt` included, holds the patch's value when the patch has one and keeps the old value otherwise (`Spread`); `updatedAt` is always the current time |
| DataContext.ApplyCharacterPatchIdempotent | src/contexts/DataContext.tsx:154-160 | applying the same patch twice at the same time is the same as once |
| DataContext.WhitelistPatchChangesOnlyWhitelist | src/contexts/DataContext.tsx:228-235 | a whitelist-only patch replaces the whitelist and the timestamp and nothing else |
| DataContext.NewTemplate | src/contexts/DataContext.tsx:179-185 | the new template carries the submitted data, the given id and both timestamps |
| DataContext.ApplyTemplatePatch | src/contexts/DataContext.tsx:194-200 | every field holds the patch's value when present and the old one otherwise; `updatedAt` is always the current time |
| DataContext.ApplyConfigPatch | src/contexts/DataContext.tsx:219-224 | the configuration is spread with the patch: an absent field is kept, a present one replaces it |
| DataContext.UpdateCharacters | src/contexts/DataContext.tsx:154-164 | same length; every character with the id gets the patch, every other one is unchanged |
| DataContext.DeleteCharacters | src/contexts/DataContext.tsx:166-172 | an order-preserving subsequence: every character without the id is kept as often as it occurred, and none with the id remains |
| DataContext.FindCharacter | src/contexts/DataContext.tsx:174-176 | the first character with the id: it is present, has the id, and no earlier character has it; nothing is found exactly when no character has the id |
| DataContext.UpdateTemplates | src/contexts/DataContext.tsx:194-204 | same length; every template with the id gets the patch, the others are unchanged |
| DataContext.DeleteTemplates | src/contexts/DataContext.tsx:206-212 | an order-preserving subsequence that keeps every template without the id as often as it occurred, and none with it |
| DataContext.FindTemplate | src/contexts/DataContext.tsx:214-216 | the first template with the id, with no earlier one having it; none exactly when the id is absent |
| DataContext.UnknownIdIsNoOp | src/contexts/DataContext.tsx:154-212 | updating or deleting an id that is not present leaves the collection as it was |
| DataContext.FindCharacterById | src/contexts/DataContext.tsx:174-176 | with unique ids, looking up a character's id finds that character |
| DataContext.AddKeepsIdsUnique | src/contexts/DataContext.tsx:138-152 | appending a character with a fresh id keeps ids unique |
| DataContext.UpdateKeepsIdsUnique | src/contexts/DataContext.tsx:154-164 | an update that does not set `id` keeps ids unique |
| DataContext.DeleteKeepsIdsUnique | src/contexts/DataContext.tsx:166-172 | deleting keeps ids unique |
| DataContext.SubsequenceIds | src/contexts/DataContext.tsx:166-172 | the ids of a subsequence form a subsequence of the ids |
| DataContext.WhitelistAddPatch | src/contexts/DataContext.tsx:228-235 | no update for an unknown character; otherwise the whitelist patch is the current whitelist plus the phone |
| DataContext.WhitelistRemovePatch | src/contexts/DataContext.tsx:237-244 | no update for an unknown character; otherwise the whitelist without every copy of the phone |
| DataContext.AddPhone | src/contexts/DataContext.tsx:228-235 | same length; an unknown character changes nothing; every character with the id gets the first match's whitelist plus the phone and a new timestamp; the others are unchanged |
| DataContext.RemovePhone | src/contexts/DataContext.tsx:237-244 | same length; an unknown character changes nothing; every character with the id gets the first match's whitelist without the phone; the others are unchanged |
| DataContext.AddToWhitelistEffect | src/contexts/DataContext.tsx:228-235 | the character with the id gains exactly one more occurrence of the phone at the end and a new timestamp; every other character is unchanged |
| DataContext.RemoveFromWhitelistEffect | src/contexts/DataContext.tsx:237-244 | the character with the id loses every copy of the phone and keeps every other entry and its count; others are unchanged |
| DataContext.DataStore.constructor | src/contexts/DataContext.tsx:86-126 | mounting runs the cleanup on storage and loads each collection from storage with the seed as fallback |
| DataContext.DataStore.CleanupVersion | src/contexts/DataContext.tsx:88-101 | storage becomes `Cleanup` of what it was |
| DataContext.DataStore.SaveCharacters | src/contexts/DataContext.tsx:129-135 | the characters key holds the encoded collection, and no other key changes |
| DataContext.DataStore.SaveTemplates | src/contexts/DataContext.tsx:129-135 | the templates key holds the encoded collection, and no other key changes |
| DataContext.DataStore.SaveConfig | src/contexts/DataContext.tsx:129-135 | the configuration key holds the encoded configuration, and no other key changes |
| DataContext.DataStore.AddCharacter | src/contexts/DataContext.tsx:138-152 | the collection gains the new character at the end and is saved; the other collections are unchanged; unique ids stay unique |
| DataContext.DataStore.UpdateCharacter | src/contexts/DataContext.tsx:154-164 | the collection becomes `UpdateCharacters` of the old one and is saved |
| DataContext.DataStore.DeleteCharacter | src/contexts/DataContext.tsx:166-172 | the collection becomes `DeleteCharacters` of the old one and is saved |
| DataContext.DataStore.GetCharacter | src/contexts/DataContext.tsx:174-176 | the first character with the id, with no earlier one having it; none exactly when the id is absent |
| DataContext.DataStore.AddTemplate | src/contexts/DataContext.tsx:179-192 | the collection gains the new template at the end and is saved; unique ids stay unique |
| DataContext.DataStore.UpdateTemplate | src/contexts/DataContext.tsx:194-204 | the collection becomes `UpdateTemplates` of the old one and is saved |
| DataContext.DataStore.DeleteTemplate | src/contexts/DataContext.tsx:206-212 | the collection becomes `DeleteTemplates` of the old one and is saved |
| DataContext.DataStore.GetTemplate | src/contexts/DataContext.tsx:214-216 | the first template with the id, with no earlier one having it; none exactly when the id is absent |
| DataContext.DataStore.UpdateConfig | src/contexts/DataContext.tsx:219-225 | the configuration is patched and saved; the collections are unchanged |
| DataContext.DataStore.AddToWhitelist | src/contexts/DataContext.tsx:228-235 | the characters gain the phone on the named character and are saved; for an unknown character neither state nor storage changes |
| DataContext.DataStore.RemoveFromWhitelist | src/contexts/DataContext.tsx:237-244 | the named character's whitelist loses the phone and is saved; for an unknown character storage is unchanged |
| DataContext.RemountRestoresState | src/contexts/DataContext.tsx:104-135 | with a faithful codec and every slot holding the encoding of the current state (`Saved`, which each mutator keeps for its own slot), a remount loads exactly the state in memory |
| AuthContext.Token | src/contexts/AuthContext.tsx:59 | the token is `mock_jwt_token_` followed by a non-empty run of digits |
| AuthContext.TokenEncodesTime | src/contexts/AuthContext.tsx:59 | the digits of the token are the login time |
| AuthContext.TokensDistinct | src/contexts/AuthContext.tsx:59 | logins at different times give different tokens |
| AuthContext.CredentialsValid | src/contexts/AuthContext.tsx:53 | only the admin user's own name can pass |
| AuthContext.LoginItems | src/contexts/AuthContext.tsx:59-63 | the user key holds the encoded admin user, the token key the token, and every other key is as before |
| AuthContext.RestoreDecision | src/contexts/AuthContext.tsx:30-45 | no restore when the stored user or token is missing or empty; a sign-in exactly when both are present and the user parses, with the parsed user; otherwise both keys are discarded |
| AuthContext.RestoreAfterLogin | src/contexts/AuthContext.tsx:47-71 | a session restored after a login signs in the admin user |
| AuthContext.RestoreAfterLogout | src/contexts/AuthContext.tsx:73-78 | a session restored after a logout stays logged out |
| AuthContext.Session.constructor | src/contexts/AuthContext.tsx:26-27 | the provider starts logged out with no user, and storage is untouched |
| AuthContext.Session.RestoreSession | src/contexts/AuthContext.tsx:30-45 | the restore effect: signs in the parsed user, removes both keys when the user does not parse, or does nothing |
| AuthContext.Session.Login | src/contexts/AuthContext.tsx:47-71 | success exactly for `Admin`/`5173rongcloud`: the admin user is signed in and the user and token are stored; a failure changes nothing |
| AuthContext.Session.Logout | src/contexts/AuthContext.tsx:73-78 | logged out with no user; exactly the user and token keys are removed |
| CharacterForm.OrEmpty | src/pages/CharacterForm.tsx:92-101 | `value \|\| ''` for an optional form value |
| CharacterForm.Accepts | src/pages/CharacterForm.tsx:182-295 | a form that passes its rules (the avatar, gender and permission rules, and the `CHARACTER` group's text and age rules) has an avatar, gender, age and permission (what the payload needs), an age of 1 to 200, and a non-empty nickname and system prompt |
| CharacterForm.Project | src/pages/CharacterForm.tsx:51-59 | every scalar field of the record is set, and each text and the tags hold the record's value in the current language |
| CharacterForm.WithLanguage | src/pages/CharacterForm.tsx:78-88 | the texts and tags hold the record's value in the language; every other field is untouched |
| CharacterForm.WithCreateDefaults | src/pages/CharacterForm.tsx:64-74 | the default avatar, gender, age and permission, empty images and tags; the typed texts are kept |
| CharacterForm.Effects | src/pages/CharacterForm.tsx:45-89 | an edit of a stored record loads it, an unknown id reports not found and keeps the loaded record, a create reports nothing; a loaded record's nickname is shown in the current language |
| CharacterForm.PatchOf | src/pages/CharacterForm.tsx:135-136 | the patch never sets `id`, `botId` or a timestamp, and carries the payload's avatar and whitelist |
| CharacterForm.CreateMultiLangText | src/pages/CharacterForm.tsx:92-101 | the current language holds the form value (or `''`), every other language keeps the stored text, or is `''` when creating |
| CharacterForm.MergeTags | src/pages/CharacterForm.tsx:109-119 | the current language holds the form's tags (or `[]`), other languages keep the stored tags, or `[]` when creating |
| CharacterForm.Payload | src/pages/CharacterForm.tsx:104-130 | the submitted data: the scalar fields from the form, the whitelist kept from the edited record (or empty), and each text's current language set from the form |
| CharacterForm.EditKeepsOtherLanguages | src/pages/CharacterForm.tsx:109-119 | in edit mode the languages not on screen are submitted exactly as stored |
| CharacterForm.CreateLeavesOtherLanguagesEmpty | src/pages/CharacterForm.tsx:109-128 | in create mode the languages not on screen are submitted empty |
| CharacterForm.UneditedSubmitReproducesRecord | src/pages/CharacterForm.tsx:45-130 | submitting the form as projected from a record, without edits, gives back that record's data |
| CharacterForm.SetOwnValue | src/pages/CharacterForm.tsx:92-101 | setting a language to its own value changes nothing |
| CharacterForm.EditShowsStoredRecord | src/pages/CharacterForm.tsx:45-89 | in edit mode with a found record, the form shows that record projected into the current language |
| CharacterForm.UnknownIdLeavesFormAlone | src/pages/CharacterForm.tsx:60-63 | an edit id with no record leaves the values alone and reports not found |
| CharacterForm.CreateKeepsTypedTexts | src/pages/CharacterForm.tsx:64-74 | in create mode the effects set the defaults and keep the typed texts |
| CharacterForm.PatchOfReplacesData | src/pages/CharacterForm.tsx:135-136 | updating with the submitted data makes the record carry that data, with its id, bot id and creation time kept |
| CharacterForm.CharacterFormPage.constructor | src/pages/CharacterForm.tsx:36-89 | mounting starts in Chinese, runs the effects, and goes back to the list when the edit id is unknown |
| CharacterForm.CharacterFormPage.RunEffects | src/pages/CharacterForm.tsx:45-89 | the form state becomes the effects' view of the store, the current record and the values |
| CharacterForm.CharacterFormPage.Edit | src/pages/CharacterForm.tsx:172-177 | typing replaces the values and nothing else |
| CharacterForm.CharacterFormPage.SwitchLanguage | src/pages/CharacterForm.tsx:45-89 | the language changes and both effects run again, so in edit mode every field is re-projected from the stored record |
| CharacterForm.CharacterFormPage.Submit | src/pages/CharacterForm.tsx:104-150 | nothing changes unless the form passes its rules; then the record is updated (edit) or added (create) with the payload, saved, and the page goes to the list |
| TemplateForm.Payload | src/pages/TemplateForm.tsx:91-106 | the submitted data: category and status from the form, each text's current language set from the form |
| TemplateForm.EditKeepsOtherLanguages | src/pages/TemplateForm.tsx:96-100 | in edit mode the languages not on screen are submitted as stored |
| TemplateForm.CreateLeavesOtherLanguagesEmpty | src/pages/TemplateForm.tsx:79-88 | in create mode the languages not on screen are submitted empty |
| TemplateForm.WithCreateDefaults | src/pages/TemplateForm.tsx:58-64 | create mode sets the default category and active status and keeps the typed texts |
| TemplateForm.UneditedSubmitReproducesRecord | src/pages/TemplateForm.tsx:42-106 | submitting the projection of a template, without edits, gives back its data |
| TemplateForm.EditShowsStoredRecord | src/pages/TemplateForm.tsx:42-76 | in edit mode with a found record, the form shows it projected into the current language |
| TemplateForm.CreateFillsDefaults | src/pages/TemplateForm.tsx:58-76 | in create mode the effects fill the defaults |
| TemplateForm.PatchOfReplacesData | src/pages/TemplateForm.tsx:111-113 | updating with the submitted data makes the template carry it, keeping id and creation time |
| TemplateForm.Project | src/pages/TemplateForm.tsx:48-53 | the category and status are set from the template, and the texts hold its current language |
| TemplateForm.WithLanguage | src/pages/TemplateForm.tsx:67-76 | the texts hold the template's value in the language; category and status are untouched |
| TemplateForm.Effects | src/pages/TemplateForm.tsx:42-76 | an edit of a stored template loads it into a complete form, an unknown id reports not found, a create fills a complete form; a loaded template's name is shown in the current language |
| TemplateForm.PatchOf | src/pages/TemplateForm.tsx:111-113 | the patch never sets `id` or a timestamp, and carries the payload's category and status |
| TemplateForm.MountAsWritten | src/pages/TemplateForm.tsx:189-199 | as written: `VALIDATION_RULES` has no `MAX_LENGTH` group, so the first render throws and the form is not shown |
| TemplateForm.Mount | src/pages/TemplateForm.tsx:42-76 | with the missing limits supplied the form is shown: an edit of a stored template shows it, an unknown id reports not found, a create has a complete form |
| TemplateForm.AsWrittenNeverMounts | src/pages/TemplateForm.tsx:189-199 | as written neither the create nor the edit route shows the form, while the corrected mount always does |
| TemplateForm.TemplateFormPage.constructor | src/pages/TemplateForm.tsx:34-76 | with the missing limits supplied: mounting starts in Chinese and shows `Mount`'s view, going back to the list when the edit id is unknown |
| TemplateForm.TemplateFormPage.RunEffects | src/pages/TemplateForm.tsx:42-76 | with the missing limits supplied: the form state becomes the effects' view |
| TemplateForm.TemplateFormPage.Edit | src/pages/TemplateForm.tsx:145-150 | with the missing limits supplied: typing replaces the values and nothing else |
| TemplateForm.TemplateFormPage.SwitchLanguage | src/pages/TemplateForm.tsx:42-76 | with the missing limits supplied: the language changes and both effects run again |
| TemplateForm.Accepts | src/utils/constants.ts:62-69 | a form passes the `TEMPLATE` group's rules exactly when its name and content are non-empty and the content has at most 15000 characters |
| TemplateForm.TemplateFormPage.Submit | src/pages/TemplateForm.tsx:91-126 | in the corrected page, nothing changes unless the form passes the `TEMPLATE` rules; then the template is updated (edit) or added (create) with the payload, saved, and the page goes to the list |
| CharacterList.FilteredCharacters | src/pages/CharacterList.tsx:46-58 | a blank term shows everything; otherwise exactly the characters whose bot id or nickname in some language contains the lower-cased term, in order, each as often as it occurs in the collection |
| CharacterList.MatchesSearch | src/pages/CharacterList.tsx:49-55 | the empty term matches every character |
| CharacterList.SearchIgnoresCase | src/pages/CharacterList.tsx:46-58 | searching for the lower-cased term gives the same list |
| CharacterList.WhitelistCell | src/pages/CharacterList.tsx:143-153 | the whitelist count is shown exactly for private characters, and it is the whitelist's length |
| CharacterList.ManageWhitelist | src/pages/CharacterList.tsx:71-77 | the dialog opens for that character's id with its Chinese nickname |
| CharacterList.XiaoyaNicknameLacksLily | src/utils/mockData.ts:21-25 | no language of the first seed nickname contains `lily` |
| CharacterList.TomNicknameLacksLily | src/utils/mockData.ts:55-59 | no language of the second seed nickname contains `lily` |
| CharacterList.LilyNicknameHasLily | src/utils/mockData.ts:89-93 | the third seed nickname contains `lily` |
| CharacterList.SearchFindsOnlyThird | src/pages/CharacterList.tsx:46-58 | when only the third character matches, the filter shows exactly that one |
| CharacterList.LilyIsNotBlank | src/pages/CharacterList.tsx:47 | `lily` is not blank and already lower case |
| CharacterList.XiaoyaDoesNotMatchLily | src/pages/CharacterList.tsx:46-58 | the first seed character does not match `lily` when its bot id does not |
| CharacterList.TomDoesNotMatchLily | src/pages/CharacterList.tsx:46-58 | the second seed character does not match `lily` when its bot id does not |
| CharacterList.LilyMatchesLily | src/pages/CharacterList.tsx:46-58 | the third seed character matches `lily` |
| CharacterList.SeedSearchFindsOnlyLily | src/pages/CharacterList.tsx:46-58 | over the seed data, searching `lily` shows just the third character |
| TemplateList.FilteredTemplates | src/pages/TemplateList.tsx:35-50 | a blank term shows everything; otherwise exactly the templates whose name or description in some language, or whose category, contains the lower-cased term, in order, each as often as it occurs |
| TemplateList.MatchesSearch | src/pages/TemplateList.tsx:39-47 | the empty term matches every template |
| TemplateList.SearchIgnoresCase | src/pages/TemplateList.tsx:35-50 | searching for the lower-cased term gives the same list |
| TemplateList.SearchFindsCategory | src/pages/TemplateList.tsx:47 | searching for a template's category always shows that template |
| TemplateList.ContainsSelf | src/pages/TemplateList.tsx:47 | every string contains itself |
| TemplateList.ActiveCount | src/pages/TemplateList.tsx:215-216 | the active count is at most the total |
| TemplateList.ActiveCountConcat | src/pages/TemplateList.tsx:215-216 | the count of two lists together is the sum of their counts, and one more template adds one exactly when it is active |
| TemplateList.ActiveCountExtremes | src/pages/TemplateList.tsx:215-216 | the count equals the total exactly when all templates are active, and is zero exactly when none is |
| TemplateList.StatusPatch | src/pages/TemplateList.tsx:63-70 | the toggle's patch sets only `isActive` |
| TemplateList.StatusToggleChangesOnlyStatus | src/pages/TemplateList.tsx:63-70 | toggling changes only that template's status and timestamp |
| TemplateList.CategoryLabel | src/pages/TemplateList.tsx:94-101 | a listed category shows its label, any other shows its value |
| WhitelistModal.DisplayedWhitelist | src/components/WhitelistModal.tsx:24-25 | the shown list is the character's whitelist, or empty for an unknown character |
| WhitelistModal.AddDecisionAsWritten | src/components/WhitelistModal.tsx:28-44 | as written: a blank input is refused, and every other input makes the handler throw |
| WhitelistModal.AddDecision | src/components/WhitelistModal.tsx:28-44 | as intended: blank refused, then a number that fails the phone pattern refused, then a duplicate refused, otherwise added; each outcome is stated as an if-and-only-if |
| WhitelistModal.AsWrittenRejectsSampleNumber | src/components/WhitelistModal.tsx:35-38 | as written no input is ever added, and the sample number `13800138000` throws, while the intended check adds it |
| WhitelistModal.SampleNumberIsPhone | src/components/WhitelistModal.tsx:100 | the placeholder's sample number is not blank and is a national number |
| WhitelistModal.SampleNumberIsDigits | src/components/WhitelistModal.tsx:100 | the sample number is all digits |
| WhitelistModal.PhoneIsNotBlank | src/components/WhitelistModal.tsx:29-38 | every string matching the phone pattern is non-blank, so the pattern check subsumes the blank check |
| WhitelistModal.ShortPhonesAreNational | src/components/WhitelistModal.tsx:105 | within the 11-character input limit, the pattern holds exactly for 10 or 11 digits, so no international form can be typed |
| WhitelistModal.GuardedAddKeepsNoDup | src/components/WhitelistModal.tsx:40-51 | adding a phone that passed the duplicate check keeps the whitelist duplicate-free |
| WhitelistModal.RemoveClearsPhone | src/components/WhitelistModal.tsx:62-75 | after a removal the phone is no longer shown |
| WhitelistModal.WhitelistChangeIsDisplayed | src/components/WhitelistModal.tsx:24-25 | after the store updates a whitelist, the dialog shows the new whitelist |
| WhitelistModal.WhitelistDialog.constructor | src/components/WhitelistModal.tsx:20-25 | the dialog starts with an empty input |
| WhitelistModal.WhitelistDialog.Type | src/components/WhitelistModal.tsx:99-106 | the input keeps at most the first 11 characters typed |
| WhitelistModal.WhitelistDialog.HandleAdd | src/components/WhitelistModal.tsx:28-59 | the outcome is the intended decision; a refusal changes neither state nor storage; an added phone is appended to the character, the characters key is rewritten when the character exists (storage is untouched when it does not), the input is cleared, and a duplicate-free whitelist stays duplicate-free |
| WhitelistModal.WhitelistDialog.HandleRemove | src/components/WhitelistModal.tsx:62-75 | the phone is removed from the character; the characters key is rewritten when the character exists and storage is untouched otherwise; the phone is no longer shown |
| ImageUpload.CheckFile | src/components/ImageUpload.tsx:69-85 | accepted exactly when the type is listed and the size is at most the limit; wrong type exactly when the type is unlisted (checked first) |
| ImageUpload.CheckBoundaries | src/components/ImageUpload.tsx:69-85 | a PNG of exactly 5 MiB is accepted, one byte more is too large, and a PDF is refused for its type |
| ImageUpload.FileList | src/components/ImageUpload.tsx:50-55 | one finished entry per URL, in order, each with uid equal to its index; nothing for a non-array value |
| ImageUpload.FileListUidsDistinct | src/components/ImageUpload.tsx:50-55 | no two shown entries share a uid |
| ImageUpload.ChosenUrl | src/components/ImageUpload.tsx:106 | the response URL when it is truthy, the entry's own URL otherwise |
| ImageUpload.HandleChange | src/components/ImageUpload.tsx:102-110 | the emitted URLs are non-empty and come only from finished entries; every finished entry with a truthy URL contributes |
| ImageUpload.HandleChangeAppend | src/components/ImageUpload.tsx:102-110 | one more entry appends at most its own URL |
| ImageUpload.HandleChangeOfCarried | src/components/ImageUpload.tsx:102-110 | entries carrying given URLs emit those URLs, less the empty ones |
| ImageUpload.ShownListRoundTrip | src/components/ImageUpload.tsx:50-110 | re-emitting the shown list gives back the value less its empty URLs, and exactly the value when it has none |
| ImageUpload.UploadAppendsUrl | src/components/ImageUpload.tsx:102-110 | a finished upload appends exactly its URL to the value |
| ImageUpload.UnfinishedContributesNothing | src/components/ImageUpload.tsx:104-105 | an entry still uploading changes nothing |
| ImageUpload.HandleRemove | src/components/ImageUpload.tsx:113-116 | the value without every copy of the removed entry's URL, order kept; `[]` for a non-array value |
| ImageUpload.RemoveShownEntry | src/components/ImageUpload.tsx:113-116 | removing the i-th shown entry drops that URL and keeps the count of every other URL |
| ImageUpload.ShowUploadButton | src/components/ImageUpload.tsx:138 | the button shows exactly while the list is shorter than `maxCount` |
| ImageUpload.SingleImageLimit | src/components/ImageUpload.tsx:20 | with the default `maxCount` of 1, one image hides the button and none shows it |
| ConfigPage.WithUploaded | src/pages/ConfigPage.tsx:64-66 | the avatar list gains the new URL at the end, one more occurrence of it, and nothing else |
| ConfigPage.WithDeleted | src/pages/ConfigPage.tsx:78-81 | every copy of the URL is gone, the other URLs are kept in order and number |
| ConfigPage.DisplayedCount | src/pages/ConfigPage.tsx:211 | the count is zero exactly when the list is empty |
| ConfigPage.DeleteUndoesUpload | src/pages/ConfigPage.tsx:64-81 | deleting a URL just uploaded, and not there before, restores the list |
| ConfigPage.WithoutLast | src/pages/ConfigPage.tsx:78-81 | removing a URL from a list ending in it is removing it from the rest |
| ConfigPage.CountAfterChanges | src/pages/ConfigPage.tsx:64-81 | an upload adds one to the count; a delete subtracts the number of copies |
| ConfigPage.WithoutCount | src/pages/ConfigPage.tsx:78-81 | removal shortens the list by the number of copies |
| ConfigPage.HandleAvatarUpload | src/pages/ConfigPage.tsx:40-75 | a file of the wrong type or over the limit changes neither state nor storage; an accepted one appends its URL to the list the handler captured at render time and saves the configuration; characters and templates are untouched |
| ConfigPage.DeleteDuringUploadReturns | src/pages/ConfigPage.tsx:61-66 | a URL deleted while an upload is pending is back in the list the upload commits |
| ConfigPage.OverlappingUploadsKeepLast | src/pages/ConfigPage.tsx:61-66 | of two uploads started from the same list, the last commit holds its own URL and not the other's |
| ConfigPage.HandleDeleteAvatar | src/pages/ConfigPage.tsx:78-83 | the list loses every copy of the URL and is saved |
| Layout.SelectedKey | src/components/Layout.tsx:28-34 | the prefixes `/characters`, `/templates`, `/config` are tried in order and any other path selects `characters`; the key is always a menu key |
| Layout.MenuClick | src/components/Layout.tsx:37-42 | a click navigates exactly for a menu key, to `/` + key |
| Layout.SelectedKeyOfMenuPath | src/components/Layout.tsx:28-34 | a menu path and any path below it highlight that entry |
| Layout.ClickHighlightsEntry | src/components/Layout.tsx:28-42 | clicking an entry leads to a page that highlights it |
| Layout.HandleLogout | src/components/Layout.tsx:45-48 | the session is logged out with the user and token removed, and the location is `/login` |
| App.Segment | src/App.tsx:95-109 | an `:id` match is the non-empty, slash-free rest of the path after the prefix |
| App.SegmentOfJoin | src/App.tsx:95-109 | a prefix followed by an id matches that id |
| App.Match | src/App.tsx:48-148 | `/login`, `/`, `/characters/new` and `/templates/new` match exactly their own routes, and an edit route's id is the non-empty, slash-free rest of its path |
| App.Navigate | src/App.tsx:24-148 | with no redirects left, or on a rendered page, the resolved element; any redirect still pending goes to `/login` or `/simple` |
| App.Resolve | src/App.tsx:24-42 | a protected route renders its page in the layout when signed in and redirects to `/login` otherwise; the login page redirects a signed-in visitor to `/simple`; `/` and unmatched paths redirect to `/simple` |
| App.LoginAndSimpleRoutes | src/App.tsx:50-83 | `/login` is the public login route and `/simple` the protected simple list |
| App.EveryPathRenders | src/App.tsx:24-148 | every path shows a page after at most two redirects: the login page when signed out, otherwise the matched page or the simple list |
| App.LoadAsWritten | src/contexts/AuthContext.tsx:26-45 | a load routes its first render as signed out, since the restore effect has not run; with a saved session every path then ends on the simple list, and without one on the login page |
| App.Load | src/App.tsx:24-42 | a load that routes with the restored session shows a protected path's own page, the simple list for any other path, and the login page without a session |
| App.ReloadLosesDeepLink | src/App.tsx:24-29 | after a login, reloading `/characters` shows the simple list as written, and the character list when routing waits for the restore |
| App.TwoRedirectsAreNeeded | src/App.tsx:148 | a signed-out visitor to an unknown path needs both redirects |
| App.CharacterFormRoutes | src/App.tsx:94-109 | the create route renders the character form without an id, and the edit route with its id |
| App.LogoutShowsLogin | src/App.tsx:50-57 | the logout destination renders the login page with no further redirect |
| App.CharacterPagesHighlightCharacters | src/components/Layout.tsx:28-34 | the character form pages highlight the characters entry |

## Left out

- Rendering, styling, toasts (`message`), loading spinners, pagination and the table sorters: they change no state the model keeps.
- WhitelistModal.WhitelistDialog.HandleRemove and WhitelistModal.WhitelistDialog.HandleAdd run as one step each. As written, they call the provider's `removeFromWhitelist` and `addToWhitelist` after a simulated delay, and those read the `characters` of the render that created them. So a second remove clicked within the first one's 300 ms delay writes the first phone back, and an add or remove committed during another one's delay is lost. The avatar upload's version of this is modelled: `ConfigPage.HandleAvatarUpload` takes its captured list as a parameter, and `ConfigPage.DeleteDuringUploadReturns` and `ConfigPage.OverlappingUploadsKeepLast` state the lost updates.
- App.EveryPathRenders: states the routing for a sign-in state that has settled. The first render of a page load is always signed out, which `App.LoadAsWritten` covers.
- `dayjs` date formatting in the tables, image previews and `getBase64`: display only.
- The clock, `nanoid` and `URL.createObjectURL`: parameters of the operations that read them. For the seed data, the ids and bot-id suffixes are parameters too.
- JSON text: `JSON.stringify`/`JSON.parse` are an abstract codec, and the round trip is a hypothesis (`Json.Codec.Faithful`). They are not a concrete serializer.
- Local-storage quota errors and the `console.error` paths: storage writes always succeed.
- A stored value that passes a validator but is not a complete record (for example a character with only a string `id` and a string `botId`): the source keeps it in state, where the views would fail on it later. The typed model cannot hold it, so such a value loads as the seed. The validators themselves are modelled exactly on JSON values.
- Patch fields explicitly set to `undefined`: a patch field is either absent (kept) or present with a value.
- Lower-casing is ASCII only. JavaScript's full Unicode `toLowerCase` is not modelled.
- The logged-in `user` is kept as a JSON value. Its fields are not typed.
- CharacterForm age input: the `InputNumber` widget clamps what can be typed to 1-150 (`src/pages/CharacterForm.tsx:206`). The model checks the form rule `VALIDATION_RULES.CHARACTER.AGE` (1-200) and does not model the widget's clamp.
- `VALIDATION_RULES.REQUIRED` does not exist in the constants, so TemplateForm's `rules` arrays (src/pages/TemplateForm.tsx:158,192,206,222) begin with `undefined`; how antd treats such an entry is not modelled. CharacterForm does not read it.
- The rule messages of `VALIDATION_RULES` are display text and are not modelled; `Constants.FieldRule` keeps only `required` and `max`.
- TemplateForm `VALIDATION_RULES.MAX_LENGTH` does not exist either, and reading a field of it throws on the first render (see Findings); `TemplateForm.MountAsWritten` records this.
- TemplateForm's page members below model the corrected page, since as written it never renders. It applies the two rules of `VALIDATION_RULES.TEMPLATE`: the name is required, and the content is required and at most 15000 characters long. The group has no rule for the description or the category, and no other name or description limit is defined, so those are not checked:
- constructor (`TemplateForm.TemplateFormPage.constructor`): mounts the corrected page; as written nothing mounts.
- RunEffects (`TemplateForm.TemplateFormPage.RunEffects`): as written the effects never run, because the render throws first.
- Edit (`TemplateForm.TemplateFormPage.Edit`): as written there is no form on screen to edit.
- SwitchLanguage (`TemplateForm.TemplateFormPage.SwitchLanguage`): as written the language tabs are never rendered.
- Submit (`TemplateForm.TemplateFormPage.Submit`): as written the submit cannot be reached. The corrected page gates it on `TemplateForm.Accepts`, and checks no description length.
- Mount (`TemplateForm.Mount`): the corrected mount, with the limits taken from `VALIDATION_RULES.TEMPLATE`.
- CharacterForm avatar: the field starts as a string, and `ImageUpload` treats a non-array value as empty (`ImageUpload.NotArray`). After an upload or a removal the widget emits an array of URLs, and the field then holds that array, which the typed record cannot. The model keeps the avatar a string and does not model what is submitted after the widget has been used.
- ImageUpload.UploadAppendsUrl assumes that antd delivers a finished upload to `handleChange` as an entry with status `done` in the list. The controlled `fileList` is rebuilt from the value, which drops an entry still uploading, and antd's behaviour in that case is not part of this model.
- JSON numbers are integers here: `age` and every other number is an `int`. A fractional age such as 25.5, which the form's number rule and `InputNumber` would accept, is not modelled.
- ImageUpload.HandleRemove: antd calls `onChange` after `onRemove` with the removed entry filtered out. When the list holds the same URL twice, that net effect keeps the other copies, whereas `HandleRemove` drops all of them. The model takes `onRemove`'s result as the new value.
- ImageUpload `multiple` uploads (`maxCount > 1` with several files in one change) beyond what `ImageUpload.HandleChange` states about a list of entries.
- ConfigPage non-array fallback (`Array.isArray(...) ? ... : []`): the configuration's list is typed, and the validator admits only arrays, so the fallback cannot apply.
- Route matching: react-router's case-insensitive and trailing-slash matching and URI decoding of `:id` are not modelled. Paths are matched exactly.
- `LoginPage`, `TestPage`, `SimpleCharacterList` and `LanguageTabs`: markup around operations modelled elsewhere (login, the character list, the language switch).
- `main.tsx`: bootstrapping only.
- `CharacterForm.CharacterFormPage.SwitchLanguage` and `TemplateForm.TemplateFormPage.SwitchLanguage` do not fold unsaved edits back, because the code does not (see above).

## Findings

| source | as written | input that shows it | evidently intended | confidence | as-written member | corrected member |
|---|---|---|---|---|---|---|
| src/components/WhitelistModal.tsx:35-38 | `VALIDATION_RULES.PHONE.pattern.test(newPhone)`; the constant is named `PATTERN`, so `pattern` is `undefined` and the call throws for every non-blank input, and no phone can ever be added | `13800138000`, the placeholder's own example | test `VALIDATION_RULES.PHONE.PATTERN` (and show `PHONE.MESSAGE`) | not executed | WhitelistModal.AddDecisionAsWritten | WhitelistModal.AddDecision |
| src/pages/TemplateForm.tsx:193 | the name field's rule and `maxLength` read `VALIDATION_RULES.MAX_LENGTH.TEMPLATE_NAME`, but the constants define only `CHARACTER`, `TEMPLATE` and `PHONE`; reading `TEMPLATE_NAME` of `undefined` throws during the first render, so neither effect runs and the page never shows | opening `/templates/new`, or `/templates/edit/` with any id | limits taken from a group that exists (for example `VALIDATION_RULES.TEMPLATE`) | not executed | TemplateForm.MountAsWritten | TemplateForm.Mount |
| src/App.tsx:24-29 | `ProtectedRoute` reads `isAuthenticated`, which starts `false` and turns `true` only in `AuthProvider`'s restore effect, after the first render; that render sends every protected path to `/login`, and the next one sends `/login` on to `/simple` | reloading `#/characters`, or opening a link to `#/templates/edit/<id>`, with a saved session | route only once the saved session is restored, so the visitor stays on the requested page | not executed | App.LoadAsWritten | App.Load |
