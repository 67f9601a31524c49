/**
 * The decisions of src/pages/CharacterList.tsx: the search filter over the
 * characters, the whitelist column and button shown only for private
 * characters, and the state handed to the whitelist dialog.
 */
module CharacterList {
  import opened Wrappers
  import opened Types
  import opened Text
  import Seqs
  import MockData

  /** Some language of the nickname contains `term` once lowered. */
  predicate NicknameMatches(nickname: MultiLangText, term: string) {
    Contains(Lower(nickname.zh), term) || Contains(Lower(nickname.en), term) || Contains(Lower(nickname.ar), term)
  }

  /** The filter's predicate: the lowered search term occurs in the lowered bot id or in a lowered nickname. */
  predicate MatchesSearch(c: Character, searchTerm: string)
    ensures searchTerm == "" ==> MatchesSearch(c, searchTerm)
  {
    var term := Lower(searchTerm);
    Contains(Lower(c.botId), term) || NicknameMatches(c.nickname, term)
  }

  function SearchPredicate(searchTerm: string): Character -> bool {
    c => MatchesSearch(c, searchTerm)
  }

  /**
   * `filteredCharacters`: the whole collection for a blank term, otherwise the
   * matching characters in their order. The term is lowered but not trimmed.
   */
  function FilteredCharacters(characters: seq<Character>, searchTerm: string): (r: seq<Character>)
    ensures IsBlank(searchTerm) ==> r == characters
    ensures Seqs.IsSubsequence(r, characters)
    ensures !IsBlank(searchTerm) ==> forall i :: 0 <= i < |r| ==> MatchesSearch(r[i], searchTerm)
    ensures !IsBlank(searchTerm) ==>
      forall i :: 0 <= i < |characters| ==> (characters[i] in r <==> MatchesSearch(characters[i], searchTerm))
    ensures !IsBlank(searchTerm) ==>
      forall x :: Seqs.Occurrences(r, x) == if MatchesSearch(x, searchTerm) then Seqs.Occurrences(characters, x) else 0
  {
    if IsBlank(searchTerm) then Seqs.SubsequenceOfSelf(characters); characters
    else Seqs.FilterOccurrences(characters, SearchPredicate(searchTerm)); Seqs.Filter(characters, SearchPredicate(searchTerm))
  }

  /** The search does not depend on the case of the term. */
  lemma SearchIgnoresCase(characters: seq<Character>, searchTerm: string)
    ensures FilteredCharacters(characters, Lower(searchTerm)) == FilteredCharacters(characters, searchTerm)
  {
    LowerKeepsBlank(searchTerm);
    LowerIdempotent(searchTerm);
    Seqs.FilterCongruent(characters, SearchPredicate(Lower(searchTerm)), SearchPredicate(searchTerm));
  }

  /** The whitelist column: the whitelist size for a private character, a dash (`None`) otherwise. */
  function WhitelistCell(c: Character): (r: Option<nat>)
    ensures r.Some? <==> c.permission == Private
    ensures r.Some? ==> r.value == |c.whitelist|
  {
    if c.permission == Private then Some(|c.whitelist|) else None
  }

  /** The state of the whitelist dialog. */
  datatype WhitelistDialog = WhitelistDialog(open: bool, characterId: string, characterName: string)

  const CLOSED_DIALOG := WhitelistDialog(false, "", "")

  /** `handleWhitelistManage(character)`: open the dialog on that character, titled with its Chinese nickname. */
  function ManageWhitelist(c: Character): (d: WhitelistDialog)
    ensures d.open && d.characterId == c.id && d.characterName == c.nickname.zh
  {
    WhitelistDialog(true, c.id, c.nickname.zh)
  }

  /** No language of Xiaoya's nickname contains `lily`, in any case. */
  lemma XiaoyaNicknameLacksLily()
    ensures !NicknameMatches(MockData.XIAOYA_NICKNAME, "lily")
  {
    var n := MockData.XIAOYA_NICKNAME;
    LowerOmits(n.zh, 'l');
    LowerOmits(n.en, 'l');
    LowerOmits(n.ar, 'l');
    NotContainsFirstChar(Lower(n.zh), "lily");
    NotContainsFirstChar(Lower(n.en), "lily");
    NotContainsFirstChar(Lower(n.ar), "lily");
  }

  /** No language of Tom's nickname contains `lily`, in any case. */
  lemma TomNicknameLacksLily()
    ensures !NicknameMatches(MockData.TOM_NICKNAME, "lily")
  {
    var n := MockData.TOM_NICKNAME;
    LowerOmits(n.zh, 'l');
    LowerOmits(n.en, 'l');
    LowerOmits(n.ar, 'l');
    NotContainsFirstChar(Lower(n.zh), "lily");
    NotContainsFirstChar(Lower(n.en), "lily");
    NotContainsFirstChar(Lower(n.ar), "lily");
  }

  /** The English nickname `Creative Designer Lily` contains `lily` once lowered. */
  lemma LilyNicknameHasLily()
    ensures NicknameMatches(MockData.LILY_NICKNAME, "lily")
  {
    var l := Lower(MockData.LILY_NICKNAME.en);
    assert l[18..22] == "lily";
    ContainsAt(l, "lily", 18);
  }

  /** A search that rejects the first two of three characters and accepts the third finds the third alone. */
  lemma SearchFindsOnlyThird(x: Character, t: Character, l: Character, searchTerm: string)
    requires !IsBlank(searchTerm)
    requires !MatchesSearch(x, searchTerm) && !MatchesSearch(t, searchTerm) && MatchesSearch(l, searchTerm)
    ensures FilteredCharacters([x, t, l], searchTerm) == [l]
  {
    var p := SearchPredicate(searchTerm);
    assert !p(x) && !p(t) && p(l);
    var cs := [x, t, l];
    assert cs[1..] == [t, l] && cs[1..][1..] == [l] && [l][1..] == [];
    calc {
      Seqs.Filter(cs, p);
      Seqs.Filter([t, l], p);
      Seqs.Filter([l], p);
      [l] + Seqs.Filter([], p);
      [l];
    }
  }

  lemma LilyIsNotBlank()
    ensures !IsBlank("lily") && Lower("lily") == "lily"
  {
    var s := "lily";
    NotBlankAt(s, 0);
    LowerOfNoCapitals(s);
  }

  lemma XiaoyaDoesNotMatchLily(id: string, botSuffix: string)
    requires !Contains(Lower("bot_" + botSuffix), "lily")
    ensures !MatchesSearch(MockData.Xiaoya(id, botSuffix), "lily")
  {
    LilyIsNotBlank();
    XiaoyaNicknameLacksLily();
  }

  lemma TomDoesNotMatchLily(id: string, botSuffix: string)
    requires !Contains(Lower("bot_" + botSuffix), "lily")
    ensures !MatchesSearch(MockData.Tom(id, botSuffix), "lily")
  {
    LilyIsNotBlank();
    TomNicknameLacksLily();
  }

  lemma LilyMatchesLily(id: string, botSuffix: string)
    ensures MatchesSearch(MockData.Lily(id, botSuffix), "lily")
  {
    LilyIsNotBlank();
    LilyNicknameHasLily();
  }

  /**
   * Searching the seed characters for `lily` finds Lily alone, as long as no
   * generated bot id happens to contain `lily`.
   */
  lemma SeedSearchFindsOnlyLily(ids: seq<string>, botSuffixes: seq<string>)
    requires |ids| == 3 && |botSuffixes| == 3
    requires forall i :: 0 <= i < 3 ==> !Contains(Lower("bot_" + botSuffixes[i]), "lily")
    ensures FilteredCharacters(MockData.SeedCharacters(ids, botSuffixes), "lily")
      == [MockData.SeedCharacters(ids, botSuffixes)[2]]
  {
    XiaoyaDoesNotMatchLily(ids[0], botSuffixes[0]);
    TomDoesNotMatchLily(ids[1], botSuffixes[1]);
    LilyMatchesLily(ids[2], botSuffixes[2]);
    LilyIsNotBlank();
    SearchFindsOnlyThird(MockData.Xiaoya(ids[0], botSuffixes[0]), MockData.Tom(ids[1], botSuffixes[1]),
      MockData.Lily(ids[2], botSuffixes[2]), "lily");
  }
}
