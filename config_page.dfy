/**
 * The default-avatar settings of src/pages/ConfigPage.tsx: an upload is
 * checked for type and then size, a good one appends its URL to
 * `config.defaultAvatars`, and a delete drops every copy of a URL. Both go
 * through `updateConfig`, which saves the configuration.
 *
 * `URL.createObjectURL` is a parameter (`objectUrl`). The source reads the
 * list through `Array.isArray(...) ? ... : []`; here the configuration's
 * list is typed, and the store's validator admits only arrays, so that
 * fallback never applies.
 */
module ConfigPage {
  import opened Wrappers
  import opened Types
  import Seqs
  import Persistence
  import DataContext
  import ImageUpload

  /** The list after a successful upload of `objectUrl`. */
  function WithUploaded(avatars: seq<string>, objectUrl: string): (r: seq<string>)
    ensures |r| == |avatars| + 1 && r[..|avatars|] == avatars && r[|avatars|] == objectUrl
    ensures forall x :: Seqs.Occurrences(r, x) == Seqs.Occurrences(avatars, x) + (if x == objectUrl then 1 else 0)
  {
    forall x ensures Seqs.Occurrences(avatars + [objectUrl], x) == Seqs.Occurrences(avatars, x) + (if x == objectUrl then 1 else 0) {
      Seqs.OccurrencesAppend(avatars, objectUrl, x);
    }
    avatars + [objectUrl]
  }

  /** The list after deleting `avatarUrl`: every copy gone, the others kept in order and number. */
  function WithDeleted(avatars: seq<string>, avatarUrl: string): (r: seq<string>)
    ensures Seqs.IsSubsequence(r, avatars)
    ensures forall x :: Seqs.Occurrences(r, x) == if x == avatarUrl then 0 else Seqs.Occurrences(avatars, x)
  {
    forall x ensures Seqs.Occurrences(Seqs.Without(avatars, avatarUrl), x) == if x == avatarUrl then 0 else Seqs.Occurrences(avatars, x) {
      Seqs.WithoutOccurrences(avatars, avatarUrl, x);
    }
    Seqs.Without(avatars, avatarUrl)
  }

  /** The count shown under the list. */
  function DisplayedCount(c: Config): (n: nat)
    ensures n == 0 <==> c.defaultAvatars == []
  {
    |c.defaultAvatars|
  }

  /** Deleting an avatar just uploaded restores the list, when it was not there before. */
  lemma DeleteUndoesUpload(avatars: seq<string>, objectUrl: string)
    requires objectUrl !in avatars
    ensures WithDeleted(WithUploaded(avatars, objectUrl), objectUrl) == avatars
  {
    var up := WithUploaded(avatars, objectUrl);
    assert up == avatars + [objectUrl];
    Seqs.WithoutAbsent(avatars, objectUrl);
    WithoutLast(avatars, objectUrl);
  }

  lemma {:induction false} WithoutLast(xs: seq<string>, v: string)
    ensures Seqs.Without(xs + [v], v) == Seqs.Without(xs, v)
  {
    if xs == [] {
      assert [] + [v] == [v];
      assert [v][1..] == [];
    } else {
      assert (xs + [v])[0] == xs[0];
      assert (xs + [v])[1..] == xs[1..] + [v];
      WithoutLast(xs[1..], v);
    }
  }

  /** An upload adds one to the count, and a delete removes as many as there were copies. */
  lemma CountAfterChanges(c: Config, url: string)
    ensures DisplayedCount(Config(WithUploaded(c.defaultAvatars, url))) == DisplayedCount(c) + 1
    ensures DisplayedCount(Config(WithDeleted(c.defaultAvatars, url))) == DisplayedCount(c) - Seqs.Occurrences(c.defaultAvatars, url)
  {
    WithoutCount(c.defaultAvatars, url);
  }

  lemma {:induction false} WithoutCount(xs: seq<string>, v: string)
    ensures |Seqs.Without(xs, v)| == |xs| - Seqs.Occurrences(xs, v)
  {
    if xs != [] {
      WithoutCount(xs[1..], v);
      if xs[0] != v {
        assert Seqs.Without(xs, v) == [xs[0]] + Seqs.Without(xs[1..], v);
      }
    }
  }

  /**
   * `handleAvatarUpload`: a file of the wrong type or over the limit changes
   * nothing. An accepted one is uploaded, and after the `await` its URL is
   * appended to `captured` and saved. `captured` is `config.defaultAvatars`
   * as of the render that created the handler: the current list when
   * nothing else changed it during the upload.
   */
  method HandleAvatarUpload(store: DataContext.DataStore, file: ImageUpload.Picked, captured: seq<string>, objectUrl: string)
    returns (outcome: ImageUpload.Check)
    modifies store, store.storage
    ensures outcome == ImageUpload.CheckFile(file)
    ensures store.characters == old(store.characters) && store.templates == old(store.templates)
    ensures outcome != ImageUpload.Accepted ==>
      store.config == old(store.config) && store.storage.items == old(store.storage.items)
    ensures outcome == ImageUpload.Accepted ==>
      store.config.defaultAvatars == WithUploaded(captured, objectUrl)
      && store.storage.items == old(store.storage.items)[Persistence.CONFIG_KEY :=
           store.codec.encode(Persistence.ConfigToJson(store.config))]
  {
    outcome := ImageUpload.CheckFile(file);
    if outcome == ImageUpload.Accepted {
      var newAvatars := WithUploaded(captured, objectUrl);
      store.UpdateConfig(ConfigPatch(Some(newAvatars)));
    }
  }

  /**
   * A delete made while an upload is pending is undone by the upload's
   * commit, which starts from the list it captured before the delete.
   */
  lemma DeleteDuringUploadReturns(captured: seq<string>, deleted: string, objectUrl: string)
    requires deleted in captured
    ensures deleted !in WithDeleted(captured, deleted)
    ensures deleted in WithUploaded(captured, objectUrl)
  {
    assert Seqs.Occurrences(WithDeleted(captured, deleted), deleted) == 0;
    assert Seqs.Occurrences(WithUploaded(captured, objectUrl), deleted) >= Seqs.Occurrences(captured, deleted) > 0;
  }

  /**
   * Of two uploads started from the same list, the commit that comes last
   * holds only its own URL: the other upload is lost.
   */
  lemma OverlappingUploadsKeepLast(captured: seq<string>, first: string, second: string)
    requires first != second && first !in captured
    ensures first in WithUploaded(captured, first)
    ensures first !in WithUploaded(captured, second) && second in WithUploaded(captured, second)
  {
    assert Seqs.Occurrences(WithUploaded(captured, second), first) == Seqs.Occurrences(captured, first) == 0;
  }

  /** `handleDeleteAvatar(avatarUrl)`: the list without that URL, saved. */
  method HandleDeleteAvatar(store: DataContext.DataStore, avatarUrl: string)
    modifies store, store.storage
    ensures store.config.defaultAvatars == WithDeleted(old(store.config.defaultAvatars), avatarUrl)
    ensures avatarUrl !in store.config.defaultAvatars
    ensures store.characters == old(store.characters) && store.templates == old(store.templates)
    ensures store.storage.items == old(store.storage.items)[Persistence.CONFIG_KEY :=
      store.codec.encode(Persistence.ConfigToJson(store.config))]
  {
    var newAvatars := WithDeleted(store.config.defaultAvatars, avatarUrl);
    store.UpdateConfig(ConfigPatch(Some(newAvatars)));
    assert Seqs.Occurrences(newAvatars, avatarUrl) == 0;
  }
}
