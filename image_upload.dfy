/**
 * The image picker of src/components/ImageUpload.tsx: the check made before
 * a file is uploaded, the file list shown for the `value` prop, the URLs
 * emitted when the list changes or a file is removed, and when the upload
 * button is shown.
 *
 * The upload itself (`URL.createObjectURL` after a delay) and the preview
 * are not modelled; an uploaded file reaches `handleChange` as a `Done`
 * entry whose response carries its URL.
 */
module ImageUpload {
  import opened Wrappers
  import opened Text
  import Constants
  import Seqs

  /** A picked file: its MIME type and its size in bytes. */
  datatype Picked = Picked(mimeType: string, size: nat)

  /** The outcome of the check made before an upload. */
  datatype Check = Accepted | WrongType | TooLarge

  /**
   * `beforeUpload`: the type is checked first, then the size, and a file of
   * exactly the limit is accepted.
   */
  function CheckFile(f: Picked): (r: Check)
    ensures r == Accepted <==> f.mimeType in Constants.ACCEPTED_IMAGE_TYPES && f.size <= Constants.MAX_FILE_SIZE
    ensures r == WrongType <==> f.mimeType !in Constants.ACCEPTED_IMAGE_TYPES
    ensures r == TooLarge ==> f.size > Constants.MAX_FILE_SIZE
  {
    if f.mimeType !in Constants.ACCEPTED_IMAGE_TYPES then WrongType
    else if f.size > Constants.MAX_FILE_SIZE then TooLarge
    else Accepted
  }

  /** A 5 MiB PNG is accepted, one byte more is too large, and a PDF of any size is refused for its type. */
  lemma CheckBoundaries(size: nat)
    ensures CheckFile(Picked("image/png", 5 * 1024 * 1024)) == Accepted
    ensures CheckFile(Picked("image/png", 5 * 1024 * 1024 + 1)) == TooLarge
    ensures CheckFile(Picked("application/pdf", size)) == WrongType
  {
    assert Constants.ACCEPTED_IMAGE_TYPES[2] == "image/png";
    assert "application/pdf" !in Constants.ACCEPTED_IMAGE_TYPES by {
      forall i | 0 <= i < |Constants.ACCEPTED_IMAGE_TYPES|
        ensures Constants.ACCEPTED_IMAGE_TYPES[i] != "application/pdf"
      {
        assert Constants.ACCEPTED_IMAGE_TYPES[i][0] == 'i';
      }
    }
  }

  /** The `value` prop: an array of URLs (an absent prop is `[]`), or anything else, such as one URL string. */
  datatype Value = Urls(urls: seq<string>) | NotArray

  datatype Status = Uploading | Done | Error | Removed

  /** An entry of the antd file list; `responseUrl` is `response?.url`. */
  datatype UploadFile = UploadFile(uid: string, name: string, status: Status, url: Option<string>, responseUrl: Option<string>)

  /** The entry shown for the URL at `index`. */
  function Entry(url: string, index: nat): UploadFile {
    UploadFile(NatToString(index), "image-" + NatToString(index) + ".jpg", Done, Some(url), None)
  }

  /**
   * `fileList`: one finished entry per URL, in order, whose `uid` is its
   * index written in decimal; nothing for a value that is not an array.
   */
  function FileList(v: Value): (r: seq<UploadFile>)
    ensures v.NotArray? ==> r == []
    ensures v.Urls? ==> |r| == |v.urls|
    ensures v.Urls? ==> forall i :: 0 <= i < |r| ==>
      r[i].status == Done && r[i].url == Some(v.urls[i]) && r[i].responseUrl.None?
      && AllDigits(r[i].uid) && DigitsValue(r[i].uid) == i
  {
    match v
    case NotArray => []
    case Urls(us) =>
      var r := seq(|us|, i requires 0 <= i < |us| => Entry(us[i], i));
      assert forall i :: 0 <= i < |r| ==> DigitsValue(r[i].uid) == i by {
        forall i | 0 <= i < |r| ensures DigitsValue(r[i].uid) == i {
          NatToStringValue(i);
        }
      }
      r
  }

  /** No two entries of the file list share a `uid`. */
  lemma FileListUidsDistinct(v: Value, i: nat, j: nat)
    requires i < j < |FileList(v)|
    ensures FileList(v)[i].uid != FileList(v)[j].uid
  {
  }

  /** `value` is truthy: present and not the empty string. */
  predicate Truthy(o: Option<string>) {
    o.Some? && o.value != ""
  }

  /** `file.response?.url || file.url`. */
  function ChosenUrl(f: UploadFile): (r: Option<string>)
    ensures Truthy(f.responseUrl) ==> r == f.responseUrl
    ensures !Truthy(f.responseUrl) ==> r == f.url
  {
    if Truthy(f.responseUrl) then f.responseUrl else f.url
  }

  /** The URL a finished entry contributes to `handleChange`, if any. */
  predicate Contributes(f: UploadFile) {
    f.status == Done && Truthy(ChosenUrl(f))
  }

  /**
   * `handleChange`: the chosen URLs of the finished entries, in order, with
   * the falsy ones dropped.
   */
  function HandleChange(files: seq<UploadFile>): (r: seq<string>)
    ensures |r| <= |files|
    ensures forall i :: 0 <= i < |r| ==> r[i] != ""
    ensures forall i :: 0 <= i < |files| && Contributes(files[i]) ==> ChosenUrl(files[i]).value in r
    ensures forall i :: 0 <= i < |r| ==>
      exists j :: 0 <= j < |files| && Contributes(files[j]) && ChosenUrl(files[j]) == Some(r[i])
  {
    if files == [] then []
    else
      var rest := HandleChange(files[1..]);
      var r := if Contributes(files[0]) then [ChosenUrl(files[0]).value] + rest else rest;
      assert forall i :: 0 <= i < |rest| ==>
        exists j :: 0 <= j < |files| && Contributes(files[j]) && ChosenUrl(files[j]) == Some(rest[i]) by {
        forall i | 0 <= i < |rest|
          ensures exists j :: 0 <= j < |files| && Contributes(files[j]) && ChosenUrl(files[j]) == Some(rest[i])
        {
          var k :| 0 <= k < |files[1..]| && Contributes(files[1..][k]) && ChosenUrl(files[1..][k]) == Some(rest[i]);
          assert files[k + 1] == files[1..][k];
        }
      }
      r
  }

  /** `handleChange` over a list followed by one more entry. */
  lemma {:induction false} HandleChangeAppend(files: seq<UploadFile>, f: UploadFile)
    ensures HandleChange(files + [f]) == HandleChange(files) + (if Contributes(f) then [ChosenUrl(f).value] else [])
  {
    if files == [] {
      assert [] + [f] == [f];
      assert [f][1..] == [];
    } else {
      assert (files + [f])[0] == files[0];
      assert (files + [f])[1..] == files[1..] + [f];
      HandleChangeAppend(files[1..], f);
    }
  }

  /** Entries that carry exactly the given URLs, finished and without a response. */
  ghost predicate Carries(files: seq<UploadFile>, us: seq<string>) {
    |files| == |us|
    && forall i :: 0 <= i < |files| ==> files[i].status == Done && files[i].url == Some(us[i]) && files[i].responseUrl.None?
  }

  predicate NonEmpty(s: string) {
    s != ""
  }

  lemma {:induction false} HandleChangeOfCarried(files: seq<UploadFile>, us: seq<string>)
    requires Carries(files, us)
    ensures HandleChange(files) == Seqs.Filter(us, NonEmpty)
  {
    if files != [] {
      assert Carries(files[1..], us[1..]);
      HandleChangeOfCarried(files[1..], us[1..]);
    }
  }

  /** Re-emitting the shown list gives back the value, less its empty URLs. */
  lemma ShownListRoundTrip(us: seq<string>)
    ensures HandleChange(FileList(Urls(us))) == Seqs.Filter(us, NonEmpty)
    ensures (forall i :: 0 <= i < |us| ==> us[i] != "") ==> HandleChange(FileList(Urls(us))) == us
  {
    HandleChangeOfCarried(FileList(Urls(us)), us);
    if forall i :: 0 <= i < |us| ==> us[i] != "" {
      Seqs.FilterKeepsAll(us, NonEmpty);
    }
  }

  /** An upload that finishes with URL `url` appends exactly that URL to a value of non-empty URLs. */
  lemma UploadAppendsUrl(us: seq<string>, f: UploadFile, url: string)
    requires forall i :: 0 <= i < |us| ==> us[i] != ""
    requires f.status == Done && f.responseUrl == Some(url) && url != ""
    ensures HandleChange(FileList(Urls(us)) + [f]) == us + [url]
  {
    HandleChangeAppend(FileList(Urls(us)), f);
    ShownListRoundTrip(us);
  }

  /** An entry still uploading contributes nothing. */
  lemma UnfinishedContributesNothing(files: seq<UploadFile>, f: UploadFile)
    requires f.status != Done
    ensures HandleChange(files + [f]) == HandleChange(files)
  {
    HandleChangeAppend(files, f);
  }

  /**
   * `handleRemove(file)`: the value with every occurrence of the entry's URL
   * dropped and the rest kept in order; `[]` for a value that is not an array.
   */
  function HandleRemove(v: Value, file: UploadFile): (r: seq<string>)
    ensures v.NotArray? ==> r == []
    ensures v.Urls? ==> Seqs.IsSubsequence(r, v.urls)
    ensures v.Urls? ==> forall x :: Seqs.Occurrences(r, x) == if Some(x) == file.url then 0 else Seqs.Occurrences(v.urls, x)
  {
    match v
    case NotArray => []
    case Urls(us) =>
      if file.url.Some? then
        forall x ensures Seqs.Occurrences(Seqs.Without(us, file.url.value), x)
          == if Some(x) == file.url then 0 else Seqs.Occurrences(us, x) {
          Seqs.WithoutOccurrences(us, file.url.value, x);
        }
        Seqs.Without(us, file.url.value)
      else
        Seqs.SubsequenceOfSelf(us);
        us
  }

  /** Removing the entry shown for the `i`-th URL drops that URL everywhere and nothing else. */
  lemma RemoveShownEntry(us: seq<string>, i: nat, x: string)
    requires i < |us|
    ensures var r := HandleRemove(Urls(us), FileList(Urls(us))[i]);
      us[i] !in r && (x != us[i] ==> Seqs.Occurrences(r, x) == Seqs.Occurrences(us, x))
  {
    var r := HandleRemove(Urls(us), FileList(Urls(us))[i]);
    assert Seqs.Occurrences(r, us[i]) == 0;
  }

  const DEFAULT_MAX_COUNT: nat := 1

  /** The upload button is rendered while the list is shorter than `maxCount`. */
  function ShowUploadButton(v: Value, maxCount: int): (r: bool)
    ensures v.Urls? ==> (r <==> |v.urls| < maxCount)
    ensures v.NotArray? ==> (r <==> 0 < maxCount)
  {
    !(|FileList(v)| >= maxCount)
  }

  /** With the default limit, one image hides the button, and a value that is not an array always shows it. */
  lemma SingleImageLimit(url: string)
    ensures !ShowUploadButton(Urls([url]), DEFAULT_MAX_COUNT)
    ensures ShowUploadButton(Urls([]), DEFAULT_MAX_COUNT)
    ensures ShowUploadButton(NotArray, DEFAULT_MAX_COUNT)
  {
  }
}
