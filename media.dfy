/** The shared media gallery of src/pages/MediaPage.jsx: the kind derived from a
    file's MIME type, the tab filter, icons and badges, upload, delete, and the
    loading of view URLs. */
module Media {
  import opened Base
  import opened Text
  import Seqs

  /** A gallery item; `kind` is "image", "video" or "audio" for items this page uploads. */
  datatype MediaItem = MediaItem(id: string, kind: string, title: string, s3Key: string)

  /** A chosen file: its name, MIME type and size. */
  datatype File = File(name: string, mime: string, size: nat)

  /** The upload-URL request, with the kind the page derived. */
  datatype UploadRequest = UploadRequest(fileName: string, contentType: string, kind: string)

  /** The reply to the upload-URL request: where to put the file and its storage key. */
  datatype Presigned = Presigned(uploadUrl: string, key: string)

  /** The record `saveMedia` stores for an uploaded file. */
  datatype MediaRecord = MediaRecord(kind: string, title: string, s3Key: string, contentType: string, sizeBytes: nat)

  /** A call the page makes to the media service. */
  datatype MediaRequest =
    | GetMedia
    | GetUploadUrl(upload: UploadRequest)
    | UploadToS3(uploadUrl: string, file: File)
    | SaveMedia(record: MediaRecord)
    | GetViewUrl(key: string)
    | DeleteMedia(id: string)

  /** What a completed upload yields: the saved item and its view URL. */
  datatype Uploaded = Uploaded(item: MediaItem, viewUrl: string)

  /** The calls of the upload chain for file `f` titled `title`: the upload-URL request,
      then the transfer, the saved record and the view-URL request, each made only when
      every call before it succeeded. */
  function UploadTrace(f: File, title: string, presigned: Result<Presigned>, put: Result<()>, saved: Result<MediaItem>)
    : (r: seq<MediaRequest>)
    ensures 1 <= |r| <= 4 && r[0] == GetUploadUrl(UploadRequest(f.name, f.mime, MediaKind(f.mime)))
    ensures |r| == 1 <==> presigned.Err?
    ensures |r| == 4 <==> presigned.Ok? && put.Ok? && saved.Ok?
    ensures |r| >= 2 ==> r[1] == UploadToS3(presigned.value.uploadUrl, f)
    ensures |r| >= 3 ==> put.Ok? && r[2] == SaveMedia(MediaRecord(MediaKind(f.mime), title, presigned.value.key, f.mime, f.size))
    ensures |r| == 4 ==> r[3] == GetViewUrl(presigned.value.key)
  {
    var first := [GetUploadUrl(UploadRequest(f.name, f.mime, MediaKind(f.mime)))];
    match presigned
    case Err(_) => first
    case Ok(p) =>
      if put.Err? then first + [UploadToS3(p.uploadUrl, f)]
      else
        var upToSave := first + [UploadToS3(p.uploadUrl, f), SaveMedia(MediaRecord(MediaKind(f.mime), title, p.key, f.mime, f.size))];
        if saved.Err? then upToSave else upToSave + [GetViewUrl(p.key)]
  }

  /** How the upload chain settles: the saved item with its view URL when all four calls
      succeed, and otherwise the error of the first call that failed. */
  function UploadOutcome(presigned: Result<Presigned>, put: Result<()>, saved: Result<MediaItem>, view: Result<string>)
    : (r: Result<Uploaded>)
    ensures r.Ok? <==> presigned.Ok? && put.Ok? && saved.Ok? && view.Ok?
    ensures r.Ok? ==> r.value == Uploaded(saved.value, view.value)
    ensures presigned.Err? ==> r == Err(presigned.msg)
    ensures presigned.Ok? && put.Err? ==> r == Err(put.msg)
    ensures presigned.Ok? && put.Ok? && saved.Err? ==> r == Err(saved.msg)
    ensures presigned.Ok? && put.Ok? && saved.Ok? && view.Err? ==> r == Err(view.msg)
  {
    if presigned.Err? then Err(presigned.msg)
    else if put.Err? then Err(put.msg)
    else if saved.Err? then Err(saved.msg)
    else if view.Err? then Err(view.msg)
    else Ok(Uploaded(saved.value, view.value))
  }

  /** A finished upload went through all four calls, and the record was saved, and its
      view URL asked for, under the key the upload-URL reply gave, with the form's title
      and the kind derived from the MIME type. */
  lemma UploadSavesUnderPresignedKey(f: File, title: string, presigned: Result<Presigned>, put: Result<()>,
                                     saved: Result<MediaItem>, view: Result<string>)
    requires UploadOutcome(presigned, put, saved, view).Ok?
    ensures var t := UploadTrace(f, title, presigned, put, saved);
            && |t| == 4
            && t[2].record.s3Key == presigned.value.key == t[3].key
            && t[2].record.title == title && t[2].record.kind == MediaKind(f.mime)
  {
  }

  /** `(data.media || []).map(item => getViewUrl(item.s3_key))`, in gallery order. */
  function ViewUrlRequests(items: seq<MediaItem>): (r: seq<MediaRequest>)
    ensures |r| == |items| && forall i :: 0 <= i < |items| ==> r[i] == GetViewUrl(items[i].s3Key)
  {
    seq(|items|, i requires 0 <= i < |items| => GetViewUrl(items[i].s3Key))
  }

  /** The kind recorded for a file: video and audio by MIME prefix, image otherwise. */
  function MediaKind(mime: string): (k: string)
    ensures k == "video" <==> StartsWith(mime, "video/")
    ensures k == "audio" <==> !StartsWith(mime, "video/") && StartsWith(mime, "audio/")
    ensures k == "image" <==> !StartsWith(mime, "video/") && !StartsWith(mime, "audio/")
  {
    if StartsWith(mime, "video/") then "video"
    else if StartsWith(mime, "audio/") then "audio"
    else "image"
  }

  /** The type detection of the upload handler: 'image' unless the MIME type says
      video or audio. */
  method DetectKind(mime: string) returns (kind: string)
    ensures kind == MediaKind(mime)
  {
    kind := "image";
    if StartsWith(mime, "video/") {
      kind := "video";
    } else if StartsWith(mime, "audio/") {
      kind := "audio";
    }
  }

  /** Whether an item is listed under a tab ("all", "photo", "video", "audio"). */
  predicate InTab(item: MediaItem, tab: string) {
    if tab == "all" then true
    else if tab == "photo" then item.kind == "image"
    else item.kind == tab
  }

  /** `filteredMedia`: the items of the active tab, in gallery order. */
  function FilteredMedia(items: seq<MediaItem>, tab: string): (r: seq<MediaItem>)
    ensures forall i :: 0 <= i < |r| ==> r[i] in items && InTab(r[i], tab)
    ensures forall i :: 0 <= i < |items| && InTab(items[i], tab) ==> items[i] in r
    ensures Seqs.IsSubseq(r, items)
    ensures forall m :: multiset(r)[m] == if InTab(m, tab) then multiset(items)[m] else 0
  {
    var shown := (item: MediaItem) => InTab(item, tab);
    Seqs.FilterMultiset(items, shown);
    Seqs.Filter(items, shown)
  }

  /** The "all" tab shows the whole gallery unchanged. */
  lemma AllTabShowsEverything(items: seq<MediaItem>)
    ensures FilteredMedia(items, "all") == items
  {
    Seqs.FilterAll(items, item => InTab(item, "all"));
  }

  /** The tab that lists items of a kind: "photo" for images, the kind itself otherwise. */
  function TabFor(kind: string): string {
    if kind == "image" then "photo" else kind
  }

  /** A freshly uploaded item is at the head of the "all" tab and is listed under the
      tab of its kind. */
  lemma UploadedItemVisible(item: MediaItem, items: seq<MediaItem>, f: File)
    requires item.kind == MediaKind(f.mime)
    ensures FilteredMedia([item] + items, "all")[0] == item
    ensures item in FilteredMedia([item] + items, TabFor(item.kind))
  {
    AllTabShowsEverything([item] + items);
    assert ([item] + items)[0] == item;
  }

  /** `getFileIcon(type)`. */
  function FileIcon(kind: string): (icon: string)
    ensures kind == "video" ==> icon == "\U{1F3AC}"
    ensures kind == "audio" ==> icon == "\U{1F3B5}"
    ensures kind != "video" && kind != "audio" ==> icon == "\U{1F5BC}\U{FE0F}"
  {
    if kind == "video" then "\U{1F3AC}"
    else if kind == "audio" then "\U{1F3B5}"
    else "\U{1F5BC}\U{FE0F}"
  }

  /** The type badge: "Photo" for images, the capitalised kind otherwise. */
  function Badge(kind: string): (b: string)
    ensures kind == "image" ==> b == "Photo"
    ensures kind != "image" ==> |b| == |kind|
    ensures kind != "image" && kind != "" ==> b[0] == UpperAscii(kind[0]) && b[1..] == kind[1..]
  {
    if kind == "image" then "Photo" else Capitalize(kind)
  }

  /** Every kind the page assigns on upload gets its own icon and badge. */
  lemma KindsLabelled(mime: string)
    ensures var k := MediaKind(mime);
            (k == "video" ==> Badge(k) == "Video" && FileIcon(k) == "\U{1F3AC}")
            && (k == "audio" ==> Badge(k) == "Audio" && FileIcon(k) == "\U{1F3B5}")
            && (k == "image" ==> Badge(k) == "Photo" && FileIcon(k) == "\U{1F5BC}\U{FE0F}")
  {
    var k := MediaKind(mime);
    if k == "video" {
      assert Capitalize(k) == [UpperAscii('v')] + "ideo";
    } else if k == "audio" {
      assert Capitalize(k) == [UpperAscii('a')] + "udio";
    }
  }

  function IdOf(m: MediaItem): string { m.id }

  /** `media.filter(m => m._id !== id)`. */
  function RemoveById(items: seq<MediaItem>, id: string): (r: seq<MediaItem>)
    ensures forall i :: 0 <= i < |r| ==> r[i].id != id
    ensures forall i :: 0 <= i < |items| && items[i].id != id ==> items[i] in r
    ensures Seqs.IsSubseq(r, items)
    ensures forall m :: multiset(r)[m] == if m.id != id then multiset(items)[m] else 0
  {
    Seqs.RemoveKey(items, IdOf, id)
  }

  /** Deleting an item just uploaded (with an id not yet in the gallery) restores it. */
  lemma DeleteUndoesUpload(item: MediaItem, items: seq<MediaItem>)
    requires forall i :: 0 <= i < |items| ==> items[i].id != item.id
    ensures RemoveById([item] + items, item.id) == items
  {
    Seqs.RemoveKeyUndoesPrepend(item, items, IdOf);
  }

  /** The view-URL map after visiting `items` in order; `lookup` is `getViewUrl` by key,
      None where the request throws (that item is skipped). */
  function ViewUrls(m: map<string, string>, items: seq<MediaItem>, lookup: string -> Option<string>): map<string, string>
  {
    if items == [] then m
    else
      var before := ViewUrls(m, items[..|items| - 1], lookup);
      var last := items[|items| - 1];
      match lookup(last.s3Key)
      case None => before
      case Some(url) => before[last.id := url]
  }

  /** Loading view URLs keeps every key already present and adds one for each item
      whose URL request succeeds; no other key appears. */
  lemma {:induction false} ViewUrlsKeys(m: map<string, string>, items: seq<MediaItem>, lookup: string -> Option<string>)
    ensures m.Keys <= ViewUrls(m, items, lookup).Keys
    ensures forall i :: 0 <= i < |items| && lookup(items[i].s3Key).Some? ==> items[i].id in ViewUrls(m, items, lookup)
    ensures forall k :: k in ViewUrls(m, items, lookup) ==> k in m || exists i :: 0 <= i < |items| && items[i].id == k
  {
    if items != [] {
      var init := items[..|items| - 1];
      ViewUrlsKeys(m, init, lookup);
      forall k | k in ViewUrls(m, items, lookup)
        ensures k in m || exists i :: 0 <= i < |items| && items[i].id == k
      {
        if k !in ViewUrls(m, init, lookup) {
          assert items[|items| - 1].id == k;
        } else if k !in m {
          var i :| 0 <= i < |init| && init[i].id == k;
          assert items[i] == init[i];
        }
      }
      forall i | 0 <= i < |items| && lookup(items[i].s3Key).Some?
        ensures items[i].id in ViewUrls(m, items, lookup)
      {
        if i < |items| - 1 {
          assert init[i] == items[i];
        }
      }
    }
  }

  /** The loop of `fetchMedia`: visits the items in order and stores each view URL
      obtained under the item's id. */
  method LoadViewUrls(m: map<string, string>, items: seq<MediaItem>, lookup: string -> Option<string>)
    returns (urls: map<string, string>)
    ensures urls == ViewUrls(m, items, lookup)
  {
    urls := m;
    var i := 0;
    while i < |items|
      invariant 0 <= i <= |items|
      invariant urls == ViewUrls(m, items[..i], lookup)
    {
      assert items[..i + 1][..i] == items[..i];
      match lookup(items[i].s3Key) {
        case None =>
        case Some(url) => urls := urls[items[i].id := url];
      }
      i := i + 1;
    }
    assert items[..|items|] == items;
  }

  class MediaPage {
    var media: seq<MediaItem>
    var viewUrls: map<string, string>
    var activeTab: string
    var title: string
    var selectedFile: Option<File>
    var showUpload: bool
    var uploading: bool
    var loading: bool
    var error: string
    /** Calls made to the media service, oldest first. */
    var requests: seq<MediaRequest>

    constructor ()
      ensures media == [] && viewUrls == map[] && activeTab == "all" && title == ""
      ensures selectedFile == None && !showUpload && !uploading && loading && error == "" && requests == []
    {
      media := [];
      viewUrls := map[];
      activeTab := "all";
      title := "";
      selectedFile := None;
      showUpload := false;
      uploading := false;
      loading := true;
      error := "";
      requests := [];
    }

    /** `fetchMedia()`: `outcome` is the list reply (None when it has no `media` field);
        the gallery is replaced, then view URLs are requested one item at a time. */
    method FetchMedia(outcome: Result<Option<seq<MediaItem>>>, lookup: string -> Option<string>)
      modifies this`media, this`viewUrls, this`error, this`loading, this`requests
      ensures outcome.Ok? ==> media == outcome.value.GetOr([]) && error == old(error)
      ensures outcome.Ok? ==> viewUrls == ViewUrls(old(viewUrls), outcome.value.GetOr([]), lookup)
      ensures outcome.Ok? ==> requests == old(requests) + [GetMedia] + ViewUrlRequests(outcome.value.GetOr([]))
      ensures outcome.Err? ==> media == old(media) && viewUrls == old(viewUrls) && error == "Failed to load media"
      ensures outcome.Err? ==> requests == old(requests) + [GetMedia]
      ensures !loading
    {
      requests := requests + [GetMedia];
      if outcome.Err? {
        error := "Failed to load media";
        loading := false;
        return;
      }
      var items := outcome.value.GetOr([]);
      media := items;
      viewUrls := LoadViewUrls(viewUrls, items, lookup);
      requests := requests + ViewUrlRequests(items);
      loading := false;
    }

    /** The service calls of `handleUpload` for file `f`, stopping at the first that
        fails; the outcome is the saved item with its view URL, or that call's error. */
    method SendUpload(f: File, presigned: Result<Presigned>, put: Result<()>, saved: Result<MediaItem>,
                      view: Result<string>) returns (outcome: Result<Uploaded>)
      modifies this`requests
      ensures requests == old(requests) + UploadTrace(f, title, presigned, put, saved)
      ensures outcome == UploadOutcome(presigned, put, saved, view)
    {
      var kind := DetectKind(f.mime);
      requests := requests + [GetUploadUrl(UploadRequest(f.name, f.mime, kind))];
      if presigned.Err? {
        return Err(presigned.msg);
      }
      var p := presigned.value;
      requests := requests + [UploadToS3(p.uploadUrl, f)];
      if put.Err? {
        return Err(put.msg);
      }
      requests := requests + [SaveMedia(MediaRecord(kind, title, p.key, f.mime, f.size))];
      if saved.Err? {
        return Err(saved.msg);
      }
      requests := requests + [GetViewUrl(p.key)];
      if view.Err? {
        return Err(view.msg);
      }
      outcome := Ok(Uploaded(saved.value, view.value));
    }

    /** `handleUpload(e)`: needs a file and a title; the kind comes from the MIME type,
        and on success the saved item goes in front, its view URL is stored, the form
        is cleared and the "all" tab is shown. `presigned`, `put`, `saved` and `view` are
        the outcomes of `getUploadUrl`, `uploadToS3`, `saveMedia` and `getViewUrl`. */
    method HandleUpload(presigned: Result<Presigned>, put: Result<()>, saved: Result<MediaItem>, view: Result<string>)
      modifies this`uploading, this`error, this`requests, this`viewUrls, this`media
      modifies this`title, this`selectedFile, this`showUpload, this`activeTab
      ensures old(selectedFile).None? || old(title) == "" ==>
                media == old(media) && viewUrls == old(viewUrls) && requests == old(requests)
                && error == old(error) && activeTab == old(activeTab) && uploading == old(uploading)
                && title == old(title) && selectedFile == old(selectedFile) && showUpload == old(showUpload)
      ensures old(selectedFile).Some? && old(title) != "" ==>
                requests == old(requests) + UploadTrace(old(selectedFile).value, old(title), presigned, put, saved)
                && !uploading
      ensures old(selectedFile).Some? && old(title) != "" ==>
                var outcome := UploadOutcome(presigned, put, saved, view);
                && (outcome.Ok? ==>
                      && media == [outcome.value.item] + old(media)
                      && viewUrls == old(viewUrls)[outcome.value.item.id := outcome.value.viewUrl]
                      && activeTab == "all" && title == "" && selectedFile == None && !showUpload && error == "")
                && (outcome.Err? ==>
                      && media == old(media) && viewUrls == old(viewUrls) && activeTab == old(activeTab)
                      && title == old(title) && selectedFile == old(selectedFile) && showUpload == old(showUpload)
                      && error == (if outcome.msg != "" then outcome.msg else "Upload failed"))
    {
      if selectedFile.None? || title == "" {
        return;
      }
      uploading := true;
      error := "";
      var outcome := SendUpload(selectedFile.value, presigned, put, saved, view);
      if outcome.Ok? {
        AddUploaded(outcome.value);
      } else {
        error := OrElse(Some(outcome.msg), "Upload failed");
      }
      uploading := false;
    }

    /** The success branch of `handleUpload`: the saved item goes in front, its view URL
        is stored, the form is cleared and the "all" tab is shown. */
    method AddUploaded(up: Uploaded)
      modifies this`viewUrls, this`media, this`title, this`selectedFile, this`showUpload, this`activeTab
      ensures media == [up.item] + old(media) && viewUrls == old(viewUrls)[up.item.id := up.viewUrl]
      ensures activeTab == "all" && title == "" && selectedFile == None && !showUpload
    {
      viewUrls := viewUrls[up.item.id := up.viewUrl];
      media := [up.item] + media;
      title := "";
      selectedFile := None;
      showUpload := false;
      activeTab := "all";
    }

    /** `handleDelete(id)`: nothing unless confirmed; then the deletion is requested and
        every item with that id goes, or the failure is shown. */
    method HandleDelete(id: string, confirmed: bool, outcome: Result<()>)
      modifies this`media, this`error, this`requests
      ensures !confirmed ==> media == old(media) && error == old(error) && requests == old(requests)
      ensures confirmed ==> requests == old(requests) + [DeleteMedia(id)]
      ensures confirmed && outcome.Ok? ==> media == RemoveById(old(media), id) && error == old(error)
      ensures confirmed && outcome.Err? ==> media == old(media) && error == "Failed to delete"
    {
      if !confirmed {
        return;
      }
      requests := requests + [DeleteMedia(id)];
      if outcome.Ok? {
        media := RemoveById(media, id);
      } else {
        error := "Failed to delete";
      }
    }
  }
}
