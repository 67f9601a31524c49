/**
 * The whitelist dialog of src/components/WhitelistModal.tsx: it shows the
 * whitelist of one character, guards an add with three checks (blank, phone
 * format, duplicate) and delegates adds and removes to the store.
 *
 * The format check as written reads `VALIDATION_RULES.PHONE.pattern`, while
 * src/utils/constants.ts names the field `PATTERN`; the lookup yields
 * `undefined`, and calling `.test` on it throws for every non-blank input.
 * `AddDecisionAsWritten` records that behaviour; the dialog below uses the
 * evidently intended check, `AddDecision`.
 */
module WhitelistModal {
  import opened Wrappers
  import opened Types
  import opened Text
  import Seqs
  import Constants
  import DataContext
  import Persistence

  /** The phone input's `maxLength`. */
  const PHONE_MAX_LENGTH: nat := 11

  /** `character?.whitelist || []`: the whitelist of the first character with the id, or none. */
  function DisplayedWhitelist(cs: seq<Character>, characterId: string): (wl: seq<string>)
    ensures DataContext.FindCharacter(cs, characterId).None? ==> wl == []
    ensures DataContext.FindCharacter(cs, characterId).Some? ==> wl == DataContext.FindCharacter(cs, characterId).value.whitelist
  {
    match DataContext.FindCharacter(cs, characterId)
    case Some(c) => c.whitelist
    case None => []
  }

  /** How `handleAdd` ends. */
  datatype AddOutcome =
    | MissingPhone     // '请输入手机号'
    | InvalidPhone     // the format message
    | DuplicatePhone   // '该手机号已存在'
    | PhoneAdded       // `addToWhitelist` called, input cleared
    | Crashed          // a TypeError escapes the handler

  /** The guard chain as written: past the blank check, `undefined.test(newPhone)` throws. */
  function AddDecisionAsWritten(newPhone: string, whitelist: seq<string>): (r: AddOutcome)
    ensures r == MissingPhone <==> IsBlank(newPhone)
    ensures r == Crashed <==> !IsBlank(newPhone)
  {
    if IsBlank(newPhone) then MissingPhone
    else Crashed
  }

  /** The guard chain with the pattern the constants define: blank, then format, then duplicate; the first failure wins. */
  function AddDecision(newPhone: string, whitelist: seq<string>): (r: AddOutcome)
    ensures r == MissingPhone <==> IsBlank(newPhone)
    ensures r == InvalidPhone <==> !IsBlank(newPhone) && !Constants.PhonePattern(newPhone)
    ensures r == DuplicatePhone <==> !IsBlank(newPhone) && Constants.PhonePattern(newPhone) && newPhone in whitelist
    ensures r == PhoneAdded <==> !IsBlank(newPhone) && Constants.PhonePattern(newPhone) && newPhone !in whitelist
  {
    if IsBlank(newPhone) then MissingPhone
    else if !Constants.MatchesPhonePattern(newPhone) then InvalidPhone
    else if newPhone in whitelist then DuplicatePhone
    else PhoneAdded
  }

  /** As written, no phone is ever added: the sample number of the placeholder crashes the handler. */
  lemma AsWrittenRejectsSampleNumber(whitelist: seq<string>)
    ensures forall s :: AddDecisionAsWritten(s, whitelist) != PhoneAdded
    ensures AddDecisionAsWritten("13800138000", []) == Crashed
    ensures AddDecision("13800138000", []) == PhoneAdded
  {
    SampleNumberIsPhone();
  }

  lemma SampleNumberIsPhone()
    ensures !IsBlank("13800138000") && Constants.NationalNumber("13800138000")
  {
    NotBlankAt("13800138000", 0);
    SampleNumberIsDigits();
  }

  lemma SampleNumberIsDigits()
    ensures AllDigits("13800138000")
  {
    var s := "13800138000";
    forall i | 0 <= i < |s| ensures IsDigit(s[i]) {
      assert s[i] in "0138";
    }
  }

  /** A string the pattern accepts ends in a digit, so the blank guard never fires on it. */
  lemma PhoneIsNotBlank(s: string)
    requires Constants.PhonePattern(s)
    ensures !IsBlank(s)
  {
    var last := |s| - 1;
    if Constants.NationalNumber(s) {
      assert IsDigit(s[last]);
    } else {
      var k: nat, m: nat :| Constants.GroupThenNumber(s, k, m);
      var tail := s[1 + k + m..];
      assert IsDigit(tail[|tail| - 1]);
      assert tail[|tail| - 1] == s[last];
    }
    NotBlankAt(s, last);
  }


  /** Within the input's 11 characters the pattern accepts only the 10- and 11-digit national form: every `+` form needs at least 12. */
  lemma ShortPhonesAreNational(s: string)
    requires |s| <= PHONE_MAX_LENGTH
    ensures Constants.PhonePattern(s) <==> 10 <= |s| && AllDigits(s)
  {
    forall k: nat, m: nat ensures !Constants.GroupThenNumber(s, k, m) {
    }
  }

  /** An add that passes the guards leaves a duplicate-free displayed whitelist duplicate-free, with the phone in it. */
  lemma GuardedAddKeepsNoDup(cs: seq<Character>, characterId: string, phone: string, now: string)
    requires phone !in DisplayedWhitelist(cs, characterId)
    requires Seqs.NoDup(DisplayedWhitelist(cs, characterId))
    ensures Seqs.NoDup(DisplayedWhitelist(DataContext.AddPhone(cs, characterId, phone, now), characterId))
    ensures DataContext.FindCharacter(cs, characterId).Some? ==>
      DisplayedWhitelist(DataContext.AddPhone(cs, characterId, phone, now), characterId)
        == DisplayedWhitelist(cs, characterId) + [phone]
  {
    var found := DataContext.FindCharacter(cs, characterId);
    if found.Some? {
      var wl := found.value.whitelist + [phone];
      WhitelistChangeIsDisplayed(cs, characterId, wl, now);
      Seqs.NoDupAppend(found.value.whitelist, phone);
    }
  }

  /** After a remove the phone is no longer in the displayed whitelist. */
  lemma RemoveClearsPhone(cs: seq<Character>, characterId: string, phone: string, now: string)
    ensures phone !in DisplayedWhitelist(DataContext.RemovePhone(cs, characterId, phone, now), characterId)
  {
    var found := DataContext.FindCharacter(cs, characterId);
    if found.Some? {
      WhitelistChangeIsDisplayed(cs, characterId, Seqs.Without(found.value.whitelist, phone), now);
    }
  }

  /** After an update that sets the whitelist of the matching characters, the dialog shows that whitelist. */
  lemma WhitelistChangeIsDisplayed(cs: seq<Character>, characterId: string, wl: seq<string>, now: string)
    requires DataContext.FindCharacter(cs, characterId).Some?
    ensures DisplayedWhitelist(DataContext.UpdateCharacters(cs, characterId, NoCharacterChange.(whitelist := Some(wl)), now), characterId) == wl
  {
    var r := DataContext.UpdateCharacters(cs, characterId, NoCharacterChange.(whitelist := Some(wl)), now);
    var c0 := DataContext.FindCharacter(cs, characterId).value;
    var k :| 0 <= k < |cs| && cs[k] == c0;
    assert r[k].id == characterId;
    var c := DataContext.FindCharacter(r, characterId).value;
    var j :| 0 <= j < |r| && r[j] == c;
    assert cs[j].id == characterId;
  }

  class WhitelistDialog {
    const store: DataContext.DataStore
    const characterId: string
    var newPhone: string

    ghost predicate Valid()
      reads this
    {
      |newPhone| <= PHONE_MAX_LENGTH
    }

    /** The whitelist the dialog lists. */
    function Whitelist(): seq<string>
      reads this, store
    {
      DisplayedWhitelist(store.characters, characterId)
    }

    constructor(store: DataContext.DataStore, characterId: string)
      ensures this.store == store && this.characterId == characterId && newPhone == ""
      ensures Valid()
    {
      this.store := store;
      this.characterId := characterId;
      newPhone := "";
    }

    /** Typing or pasting into the input: it holds at most 11 characters. */
    method Type(text: string)
      modifies this
      ensures newPhone == if |text| <= PHONE_MAX_LENGTH then text else text[..PHONE_MAX_LENGTH]
      ensures Valid()
    {
      newPhone := if |text| <= PHONE_MAX_LENGTH then text else text[..PHONE_MAX_LENGTH];
    }

    /** `handleAdd`: run the guards; on success add the phone through the store and clear the input. */
    method HandleAdd(now: string) returns (outcome: AddOutcome)
      requires Valid()
      modifies this, store, store.storage
      ensures outcome == AddDecision(old(newPhone), old(Whitelist()))
      ensures store.templates == old(store.templates) && store.config == old(store.config)
      ensures outcome != PhoneAdded ==>
        newPhone == old(newPhone) && store.characters == old(store.characters)
        && store.storage.items == old(store.storage.items)
      ensures outcome == PhoneAdded ==>
        newPhone == "" && store.characters == DataContext.AddPhone(old(store.characters), characterId, old(newPhone), now)
      ensures outcome == PhoneAdded && DataContext.FindCharacter(old(store.characters), characterId).None? ==>
        store.storage.items == old(store.storage.items)
      ensures outcome == PhoneAdded && DataContext.FindCharacter(old(store.characters), characterId).Some? ==>
        store.storage.items == old(store.storage.items)[Persistence.CHARACTERS_KEY := store.codec.encode(Persistence.CharactersToJson(store.characters))]
      ensures outcome == PhoneAdded && old(Seqs.NoDup(Whitelist())) ==> Seqs.NoDup(Whitelist())
      ensures Valid()
    {
      outcome := AddDecision(newPhone, Whitelist());
      if outcome != PhoneAdded {
        return;
      }
      ghost var before := store.characters;
      ghost var wasNoDup := Seqs.NoDup(Whitelist());
      assert newPhone !in DisplayedWhitelist(before, characterId);
      store.AddToWhitelist(characterId, newPhone, now);
      if wasNoDup {
        GuardedAddKeepsNoDup(before, characterId, newPhone, now);
      }
      newPhone := "";
    }

    /** `handleRemove(phone)`: one `removeFromWhitelist` call. */
    method HandleRemove(phone: string, now: string)
      modifies store, store.storage
      ensures store.characters == DataContext.RemovePhone(old(store.characters), characterId, phone, now)
      ensures store.templates == old(store.templates) && store.config == old(store.config)
      ensures DataContext.FindCharacter(old(store.characters), characterId).None? ==> store.storage.items == old(store.storage.items)
      ensures DataContext.FindCharacter(old(store.characters), characterId).Some? ==>
        store.storage.items == old(store.storage.items)[Persistence.CHARACTERS_KEY := store.codec.encode(Persistence.CharactersToJson(store.characters))]
      ensures phone !in Whitelist()
    {
      ghost var before := store.characters;
      store.RemoveFromWhitelist(characterId, phone, now);
      RemoveClearsPhone(before, characterId, phone, now);
    }
  }
}
