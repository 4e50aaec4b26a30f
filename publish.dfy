/**
 * The decision logic of `scripts/publish.py`: how a rendered long note is cut
 * into screenshots, how topic tags are entered, which image files are
 * uploaded, what the pre-publish check reports, and the result each publish
 * call returns.
 *
 * The browser and the file system are not modelled: the page height, which
 * paths exist and what each probe and click did are inputs.
 */
module Publish {
  import opened Wrappers
  import opened Text
  import Interact

  // ---------------------------------------------------------------------------
  // Screenshot pagination of a rendered long note
  // ---------------------------------------------------------------------------

  /** The tallest screenshot taken when the page is cut. */
  const MaxPageHeight: nat := 3000
  /** How much taller than one page a page may be and still be taken whole. */
  const SinglePageSlack: nat := 500

  /** One screenshot: its page number, and the part of the page it covers. */
  datatype Shot = Shot(page: nat, y: int, height: int, wholePage: bool)

  /** The file a screenshot is written to (in the output directory). */
  function ImageName(page: nat): (name: string)
    ensures IsPrefix("md_page_", name)
  {
    "md_page_" + NatToString(page) + ".png"
  }

  /** Different pages are written to different files. */
  lemma ImageNamesDistinct(a: nat, b: nat)
    requires a != b
    ensures ImageName(a) != ImageName(b)
  {
    if ImageName(a) == ImageName(b) {
      var x, y := NatToString(a), NatToString(b);
      assert |x| == |y|;
      assert ImageName(a)[8..8 + |x|] == x;
      assert ImageName(b)[8..8 + |y|] == y;
      NatToStringRoundTrip(a);
      NatToStringRoundTrip(b);
    }
  }

  function SumHeights(shots: seq<Shot>): int
  {
    if shots == [] then 0 else SumHeights(shots[..|shots| - 1]) + shots[|shots| - 1].height
  }

  /** The shot the cutting loop takes as its `i`-th (from 0) for a page `total` high. */
  function ClipAt(total: int, i: nat): Shot
  {
    Shot(i + 1, MaxPageHeight * i, Min(MaxPageHeight, total - MaxPageHeight * i), false)
  }

  /**
   * The screenshot part of `md_to_images`: a page at most 3500 high is taken
   * whole as page 1; a taller one is cut from the top into consecutive clips of
   * at most 3000, numbered from 1, until its whole height is covered.
   */
  method MdToImages(totalHeight: int) returns (shots: seq<Shot>)
    ensures totalHeight <= MaxPageHeight + SinglePageSlack ==> shots == [Shot(1, 0, totalHeight, true)]
    ensures totalHeight > MaxPageHeight + SinglePageSlack ==>
              && (forall i :: 0 <= i < |shots| ==> shots[i].page == i + 1 && !shots[i].wholePage)
              && (forall i :: 0 <= i < |shots| ==> 0 < shots[i].height <= MaxPageHeight)
              && |shots| >= 1 && shots[0].y == 0
              && (forall i :: 0 <= i < |shots| - 1 ==> shots[i + 1].y == shots[i].y + shots[i].height)
              && SumHeights(shots) == totalHeight
              && |shots| == (totalHeight + MaxPageHeight - 1) / MaxPageHeight
  {
    if totalHeight <= MaxPageHeight + SinglePageSlack {
      return [Shot(1, 0, totalHeight, true)];
    }
    shots := [];
    var page := 1;
    var y := 0;
    while y < totalHeight
      invariant page == |shots| + 1
      invariant y == Min(totalHeight, MaxPageHeight * |shots|)
      invariant |shots| == 0 || MaxPageHeight * (|shots| - 1) < totalHeight
      invariant forall i :: 0 <= i < |shots| ==> shots[i] == ClipAt(totalHeight, i)
      invariant SumHeights(shots) == y
      decreases totalHeight - y
    {
      var chunk := Min(MaxPageHeight, totalHeight - y);
      assert Shot(page, y, chunk, false) == ClipAt(totalHeight, |shots|);
      shots := shots + [Shot(page, y, chunk, false)];
      y := y + chunk;
      page := page + 1;
    }
    ClipCount(totalHeight, |shots|);
  }

  /** The number of clips is the page height divided by 3000, rounded up. */
  lemma ClipCount(total: int, n: nat)
    requires MaxPageHeight * (n - 1) < total <= MaxPageHeight * n
    ensures n == (total + MaxPageHeight - 1) / MaxPageHeight
  {
  }

  // ---------------------------------------------------------------------------
  // Topic tags
  // ---------------------------------------------------------------------------

  /** The most tags entered. */
  const MaxTags: nat := 10

  /** `tag.lstrip('#')`. */
  function StripHashes(s: string): (r: string)
    ensures |r| <= |s|
    ensures r == [] || r[0] != '#'
    ensures forall i :: 0 <= i < |s| - |r| ==> s[i] == '#'
  {
    if s != [] && s[0] == '#' then StripHashes(s[1..]) else s
  }

  /** What is stripped is a run of '#' at the front: the rest of the tag is kept as it is. */
  lemma {:induction false} StripHashesSuffix(s: string)
    ensures StripHashes(s) == s[|s| - |StripHashes(s)|..]
  {
    if s != [] && s[0] == '#' {
      var t := s[1..];
      var r := StripHashes(t);
      StripHashesSuffix(t);
      assert s[|s| - |r|..] == t[|t| - |r|..];
    }
  }

  /** Stripping twice strips nothing more. */
  lemma StripHashesIdempotent(s: string)
    ensures StripHashes(StripHashes(s)) == StripHashes(s)
  {
  }

  /** Every tag without its leading '#' characters, in order. */
  function StripAll(tags: seq<string>): (r: seq<string>)
    ensures |r| == |tags|
    ensures forall i :: 0 <= i < |tags| ==> r[i] == StripHashes(tags[i])
  {
    if tags == [] then [] else StripAll(tags[..|tags| - 1]) + [StripHashes(tags[|tags| - 1])]
  }

  /**
   * `_input_tags`: nothing for an empty list or when locating the editor raised;
   * otherwise the first ten tags are entered in order, each without its leading
   * '#' characters (typed after a '#' of its own). Returns the texts entered.
   */
  method InputTags(tags: seq<string>, editorLookupRaised: bool) returns (entered: seq<string>)
    ensures tags == [] || editorLookupRaised ==> entered == []
    ensures tags != [] && !editorLookupRaised ==> entered == StripAll(tags[..Min(MaxTags, |tags|)])
    ensures tags != [] && !editorLookupRaised ==>
              |entered| == Min(MaxTags, |tags|)
              && forall i :: 0 <= i < |entered| ==> entered[i] == StripHashes(tags[i])
  {
    entered := [];
    if tags == [] || editorLookupRaised {
      return;
    }
    var kept := if |tags| > MaxTags then tags[..MaxTags] else tags;
    assert kept == tags[..Min(MaxTags, |tags|)];
    for i := 0 to |kept|
      invariant entered == StripAll(kept[..i])
    {
      assert kept[..i + 1][..i] == kept[..i];
      var tag := StripHashes(kept[i]);
      entered := entered + [tag];
    }
    assert kept[..|kept|] == kept;
  }

  // ---------------------------------------------------------------------------
  // Uploads
  // ---------------------------------------------------------------------------

  /** The paths that exist, in the given order. */
  function ExistingPaths(paths: seq<string>, existing: set<string>): (valid: seq<string>)
    ensures |valid| <= |paths|
    ensures forall p :: p in valid <==> p in paths && p in existing
  {
    if paths == [] then []
    else
      var n := |paths| - 1;
      ExistingPaths(paths[..n], existing) + (if paths[n] in existing then [paths[n]] else [])
  }

  /** The existing paths keep their relative order. */
  lemma {:induction false} ExistingPathsOrdered(existing: set<string>, a: seq<string>, b: seq<string>)
    ensures ExistingPaths(a + b, existing) == ExistingPaths(a, existing) + ExistingPaths(b, existing)
    decreases |b|
  {
    if b == [] {
      assert a + b == a;
    } else {
      var n := |b| - 1;
      assert (a + b)[..|a + b| - 1] == a + b[..n];
      ExistingPathsOrdered(existing, a, b[..n]);
    }
  }

  /** One file upload: the path, the input it is set on, and the previews awaited afterwards. */
  datatype Upload = Upload(path: string, selector: string, previewsAwaited: nat)

  const NoImageError := "没有有效的图片文件"

  /**
   * `_upload_images`: a `ValueError` when none of the paths exists; otherwise each
   * existing path in turn, the first on `.upload-input` and the rest on the plain
   * file input, waiting for one more preview each time.
   */
  function UploadImages(paths: seq<string>, existing: set<string>): (r: Result<seq<Upload>, string>)
    ensures r.Err? <==> forall p :: p in paths ==> p !in existing
    ensures r.Err? ==> r.error == NoImageError
    ensures r.Ok? ==> |r.value| == |ExistingPaths(paths, existing)| >= 1
    ensures r.Ok? ==> forall i :: 0 <= i < |r.value| ==>
              r.value[i].path == ExistingPaths(paths, existing)[i] && r.value[i].previewsAwaited == i + 1
              && r.value[i].selector == (if i == 0 then ".upload-input" else "input[type=\"file\"]")
  {
    var valid := ExistingPaths(paths, existing);
    if valid == [] then
      assert forall p :: p in paths ==> p !in existing;
      Err(NoImageError)
    else
      assert valid[0] in paths && valid[0] in existing;
      Ok(seq(|valid|, i requires 0 <= i < |valid| =>
        Upload(valid[i], if i == 0 then ".upload-input" else "input[type=\"file\"]", i + 1)))
  }

  /** `_upload_video`: a `ValueError` naming the path when the file does not exist. */
  function UploadVideo(path: string, existing: set<string>): (r: Outcome<string>)
    ensures r.Fail? <==> path !in existing
    ensures r.Fail? ==> Contains(r.error, path)
  {
    if path in existing then Pass
    else
      assert IsPrefix(path, path);
      ContainsInSuffix("视频文件不存在: ", path, path);
      Fail("视频文件不存在: " + path)
  }

  // ---------------------------------------------------------------------------
  // The pre-publish check and the publish button
  // ---------------------------------------------------------------------------

  /** The title input: its lookup raised, or it found `count` inputs, the first holding `value`. */
  datatype FieldProbe = FieldRaised | Field(count: int, value: string)
  /** The publish button: its lookup raised, or it found `count` buttons, visible or not. */
  datatype ButtonProbe = ButtonRaised | Button(count: int, visible: bool)

  datatype ReadyCheck = ReadyCheck(title: string, publishButtonVisible: bool, titleOk: bool)

  /** `_check_publish_ready`: the title read back ("" when absent), whether the button shows, and `bool(title)`. */
  function CheckPublishReady(title: FieldProbe, button: ButtonProbe): (r: ReadyCheck)
    ensures r.title == (if title.Field? && title.count > 0 then title.value else "")
    ensures r.publishButtonVisible <==> button.Button? && button.count > 0 && button.visible
    ensures r.titleOk <==> r.title != ""
  {
    var t := match title
      case FieldRaised => ""
      case Field(count, value) => if count > 0 then value else "";
    var visible := match button
      case ButtonRaised => false
      case Button(count, shown) => count > 0 && shown;
    ReadyCheck(t, visible, t != "")
  }

  /** `_click_publish_button`: true exactly when a button was found and clicking it did not raise. */
  function ClickPublishButton(p: Interact.ClickProbe): (r: bool)
    ensures r <==> p.Located? && p.count > 0 && !p.clickRaised
  {
    Interact.ClickButton(p)
  }

  // ---------------------------------------------------------------------------
  // Results
  // ---------------------------------------------------------------------------

  const ReadyMessage := "已填写完毕，停在发布按钮处。请确认后使用 --auto-publish 发布。"

  /**
   * The result dictionary of `publish_image` and `publish_video`. Fields a call
   * does not report are None: `image_count`, `tags` and `schedule_time` for a
   * video, `video_path` for images, `ready_check` after an automatic publish.
   * `publish_image` always reports `schedule_time`, whose value may itself be
   * None: hence `Some(None)` there, against a missing key (`None`) for a video.
   */
  datatype PublishResult = PublishResult(
    status: string, action: string, title: string,
    imageCount: Option<nat>, videoPath: Option<string>, tags: Option<seq<string>>,
    scheduleTime: Option<Option<string>>, published: bool, readyCheck: Option<ReadyCheck>, message: string)

  /** The part of the result that depends on `auto_publish` and the click. */
  datatype Verdict = Verdict(status: string, published: bool, readyCheck: Option<ReadyCheck>, message: string)

  function Decide(autoPublish: bool, click: Interact.ClickProbe, ready: ReadyCheck): (v: Verdict)
    ensures v.status == "ready" <==> !autoPublish
    ensures autoPublish ==> v.published == ClickPublishButton(click)
                            && v.status == (if v.published then "success" else "error")
                            && v.readyCheck.None?
    ensures !autoPublish ==> !v.published && v.readyCheck == Some(ready) && v.message == ReadyMessage
  {
    if autoPublish then
      var ok := ClickPublishButton(click);
      Verdict(if ok then "success" else "error", ok, None, if ok then "发布成功" else "发布失败")
    else
      Verdict("ready", false, Some(ready), ReadyMessage)
  }

  /**
   * `publish_image`: fails with the upload's `ValueError` when no image exists;
   * otherwise reports the given title, the number of paths given (existing or
   * not), the tags (`tags or []`) and the schedule, and either stops before the
   * publish button (`ready`) or reports the click's outcome.
   */
  function PublishImage(title: string, imagePaths: seq<string>, existing: set<string>,
                        tags: Option<seq<string>>, scheduleTime: Option<string>, autoPublish: bool,
                        click: Interact.ClickProbe, ready: ReadyCheck): (r: Result<PublishResult, string>)
    ensures r.Err? <==> UploadImages(imagePaths, existing).Err?
    ensures r.Ok? ==> var p := r.value;
              && p.action == "publish_image" && p.title == title
              && p.imageCount == Some(|imagePaths|) && p.videoPath.None?
              && p.tags == Some(tags.GetOr([])) && p.scheduleTime == Some(scheduleTime)
              && (p.status == "ready" <==> !autoPublish)
              && (p.published <==> autoPublish && ClickPublishButton(click))
              && (p.status == "success" <==> p.published)
              && (p.readyCheck.Some? <==> !autoPublish)
  {
    match UploadImages(imagePaths, existing)
    case Err(e) => Err(e)
    case Ok(_) =>
      var v := Decide(autoPublish, click, ready);
      Ok(PublishResult(v.status, "publish_image", title, Some(|imagePaths|), None, Some(tags.GetOr([])),
                       Some(scheduleTime), v.published, v.readyCheck, v.message))
  }

  /**
   * `publish_video`: as `publish_image`, but gated on the video file and reporting
   * its path; the schedule is set on the page but not reported in the result.
   */
  function PublishVideo(title: string, videoPath: string, existing: set<string>,
                        scheduleTime: Option<string>, autoPublish: bool,
                        click: Interact.ClickProbe, ready: ReadyCheck): (r: Result<PublishResult, string>)
    ensures r.Err? <==> videoPath !in existing
    ensures r.Ok? ==> var p := r.value;
              && p.action == "publish_video" && p.title == title
              && p.videoPath == Some(videoPath) && p.imageCount.None? && p.tags.None?
              && p.scheduleTime.None?
              && (p.status == "ready" <==> !autoPublish)
              && (p.published <==> autoPublish && ClickPublishButton(click))
              && (p.status == "success" <==> p.published)
              && (p.readyCheck.Some? <==> !autoPublish)
  {
    match UploadVideo(videoPath, existing)
    case Fail(e) => Err(e)
    case Pass =>
      var v := Decide(autoPublish, click, ready);
      Ok(PublishResult(v.status, "publish_video", title, None, Some(videoPath), None,
                       None, v.published, v.readyCheck, v.message))
  }
}
