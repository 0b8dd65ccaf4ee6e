/** The video demo uploader: the watermark overlay drawn on a canvas over the
    video preview, the file-selection checks and default title, the upload
    guard with its tag parsing, and the simulated progress counter. */
module VideoUpload {
  import opened Common
  import opened Text

  // ---------------------------------------------------------------------------
  // Watermark geometry
  // ---------------------------------------------------------------------------

  const MaxCanvasWidth: real := 800.0
  const FallbackCanvasWidth: real := 600.0
  const Margin: real := 10.0

  /** Display width: the parent's width, or 600 when it is 0 or there is no
      parent, capped at 800. */
  function DisplayWidth(parentWidth: Option<nat>): (w: real)
    ensures 0.0 < w <= MaxCanvasWidth
    ensures (parentWidth.None? || parentWidth == Some(0)) ==> w == FallbackCanvasWidth
    ensures parentWidth.Some? && parentWidth.value > 0 ==>
      w == (if parentWidth.value as real <= MaxCanvasWidth then parentWidth.value as real else MaxCanvasWidth)
  {
    var base := if parentWidth.None? || parentWidth.value == 0 then FallbackCanvasWidth else parentWidth.value as real;
    if base <= MaxCanvasWidth then base else MaxCanvasWidth
  }

  /** Display height keeps the video's aspect ratio; it is not clamped to the
      video's own height. */
  function DisplayHeight(width: real, videoWidth: real, videoHeight: real): (h: real)
    requires videoWidth > 0.0 && videoHeight > 0.0
    ensures h * videoWidth == width * videoHeight
    ensures width > 0.0 ==> h > 0.0
  {
    width / (videoWidth / videoHeight)
  }

  /** The watermark's font size in pixels: the width over 35, kept within [10, 18]. */
  function FontSize(width: real): (f: real)
    ensures 10.0 <= f <= 18.0
    ensures 350.0 <= width <= 630.0 ==> f == width / 35.0
    ensures width <= 350.0 ==> f == 10.0
    ensures width >= 630.0 ==> f == 18.0
  {
    var scaled := if 18.0 <= width / 35.0 then 18.0 else width / 35.0;
    if 10.0 >= scaled then 10.0 else scaled
  }

  datatype Align = AlignLeft | AlignRight | AlignCenter
  datatype Baseline = BaselineTop | BaselineBottom | BaselineMiddle

  /** Where the text is anchored and how it is aligned around the anchor. */
  datatype Anchor = Anchor(x: real, y: real, align: Align, baseline: Baseline)

  const Positions: seq<string> := ["top-left", "top-right", "bottom-left", "bottom-right", "center"]

  /** The position switch. A value outside the five names matches no case and
      leaves the initial anchor: the origin, centred in both directions. */
  function AnchorFor(position: string, w: real, h: real): (a: Anchor)
    ensures position !in Positions ==> a == Anchor(0.0, 0.0, AlignCenter, BaselineMiddle)
  {
    if position == "top-left" then Anchor(Margin, Margin, AlignLeft, BaselineTop)
    else if position == "top-right" then Anchor(w - Margin, Margin, AlignRight, BaselineTop)
    else if position == "bottom-left" then Anchor(Margin, h - Margin, AlignLeft, BaselineBottom)
    else if position == "bottom-right" then Anchor(w - Margin, h - Margin, AlignRight, BaselineBottom)
    else if position == "center" then Anchor(w / 2.0, h / 2.0, AlignCenter, BaselineMiddle)
    else Anchor(0.0, 0.0, AlignCenter, BaselineMiddle)
  }

  /** For every named position on a canvas at least 20 pixels each way, the
      anchor lies inside the canvas and keeps the margin from the edges its
      alignment faces. */
  lemma AnchorInside(position: string, w: real, h: real)
    requires position in Positions && w >= 2.0 * Margin && h >= 2.0 * Margin
    ensures var a := AnchorFor(position, w, h);
      && Margin <= a.x <= w - Margin && Margin <= a.y <= h - Margin
      && (a.align == AlignLeft ==> a.x == Margin)
      && (a.align == AlignRight ==> a.x == w - Margin)
      && (a.baseline == BaselineTop ==> a.y == Margin)
      && (a.baseline == BaselineBottom ==> a.y == h - Margin)
  {
  }

  /** Left and right anchors mirror each other across the vertical centre line;
      top and bottom ones across the horizontal one. */
  lemma AnchorsMirror(w: real, h: real)
    ensures AnchorFor("top-left", w, h).x + AnchorFor("top-right", w, h).x == w
    ensures AnchorFor("bottom-left", w, h).x + AnchorFor("bottom-right", w, h).x == w
    ensures AnchorFor("top-left", w, h).y + AnchorFor("bottom-left", w, h).y == h
    ensures AnchorFor("top-right", w, h).y + AnchorFor("bottom-right", w, h).y == h
  {
  }

  /** A canvas dimension set to `css * ratio`: the fraction is dropped. */
  function BackingPixels(css: real, ratio: real): int {
    (css * ratio).Floor
  }

  /** The canvas the watermark is drawn on, with the drawing state the overlay sets. */
  class WatermarkCanvas {
    var width: int          // backing-store pixels
    var height: int
    var styleWidth: real    // CSS pixels
    var styleHeight: real
    var fontSize: real
    var fillAlpha: real
    var anchor: Anchor
    var drawnText: Option<string>

    constructor ()
      ensures width == 300 && height == 150 && drawnText.None?
    {
      width, height := 300, 150;
      styleWidth, styleHeight := 300.0, 150.0;
      fontSize := 10.0;
      fillAlpha := 1.0;
      anchor := Anchor(0.0, 0.0, AlignLeft, BaselineTop);
      drawnText := None;
    }

    /** `drawWatermark`: nothing happens without a video whose ready state is at
        least 2, a non-empty text and a 2D context. Otherwise the canvas is sized
        to the display size times the pixel ratio (assigning a fraction to a
        canvas dimension truncates it), styled at the display size, and the text
        is drawn at the anchor of the chosen position in white at the chosen
        opacity. */
    method DrawWatermark(videoPresent: bool, readyState: int, videoWidth: real, videoHeight: real,
                         text: string, position: string, opacity: real,
                         parentWidth: Option<nat>, pixelRatio: real, hasContext: bool)
      requires videoWidth > 0.0 && videoHeight > 0.0 && pixelRatio > 0.0
      modifies this
      ensures !(videoPresent && readyState >= 2 && text != "" && hasContext) ==>
        && width == old(width) && height == old(height)
        && styleWidth == old(styleWidth) && styleHeight == old(styleHeight)
        && fontSize == old(fontSize) && fillAlpha == old(fillAlpha)
        && anchor == old(anchor) && drawnText == old(drawnText)
      ensures videoPresent && readyState >= 2 && text != "" && hasContext ==>
        var w := DisplayWidth(parentWidth);
        var h := DisplayHeight(w, videoWidth, videoHeight);
        && width == BackingPixels(w, pixelRatio) && height == BackingPixels(h, pixelRatio)
        && styleWidth == w && styleHeight == h
        && fontSize == FontSize(w) && fillAlpha == opacity
        && anchor == AnchorFor(position, w, h)
        && drawnText == Some(text)
    {
      if videoPresent && readyState >= 2 && text != "" {
        if !hasContext {
          return;
        }
        var w := DisplayWidth(parentWidth);
        var h := DisplayHeight(w, videoWidth, videoHeight);
        var size, at := FontSize(w), AnchorFor(position, w, h);
        width, height := BackingPixels(w, pixelRatio), BackingPixels(h, pixelRatio);
        styleWidth, styleHeight := w, h;
        fontSize, fillAlpha, anchor, drawnText := size, opacity, at, Some(text);
      }
    }
  }

  // ---------------------------------------------------------------------------
  // File selection, title and tags
  // ---------------------------------------------------------------------------

  datatype FileInfo = FileInfo(name: string, mimeType: string, size: nat)

  const MaxVideoBytes: nat := 100 * 1024 * 1024

  const InvalidTypeError: string := "Invalid file type. Please select a video file."
  const TooLargeError: string := "File size exceeds 100 MB limit."
  const UntitledVideo: string := "Untitled Video"

  /** The file is acceptable: a `video/` MIME type and at most 100 MiB. */
  predicate AcceptableVideo(f: FileInfo) {
    StartsWith(f.mimeType, "video/") && f.size <= MaxVideoBytes
  }

  /** The default title: the name without its final `.extension`, earlier dots
      kept, or `Untitled Video` when nothing is left. */
  function DefaultTitle(name: string): (t: string)
    ensures t != []
  {
    var parts := SplitOn(name, ".");
    var stem := JoinWith(parts[..|parts| - 1], ".");
    if stem == "" then UntitledVideo else stem
  }

  /** A name `stem.ext` whose extension has no dot gets `stem` as its title. */
  lemma DefaultTitleDropsExtension(stem: string, ext: string)
    requires '.' !in ext && stem != ""
    ensures DefaultTitle(stem + "." + ext) == stem
  {
    SplitAtLast(stem, '.', ext);
    assert stem + "." + ext == stem + ['.'] + ext;
    var parts := SplitOn(stem + "." + ext, ".");
    assert parts[..|parts| - 1] == SplitOn(stem, ".");
    JoinSplit(stem, ".");
  }

  /** A name without any dot gives the fallback title. */
  lemma DefaultTitleWithoutDot(name: string)
    requires '.' !in name
    ensures DefaultTitle(name) == UntitledVideo
  {
    SplitAbsent(name, '.');
  }

  /** What the upload sends: the trimmed text fields and the parsed tag list. */
  datatype UploadRequest = UploadRequest(file: FileInfo, title: string, description: string,
                                         category: string, tags: seq<string>)

  // ---------------------------------------------------------------------------
  // Progress counter
  // ---------------------------------------------------------------------------

  const ProgressCeiling: int := 90

  /** One tick of the simulated progress timer. */
  function Tick(p: int): int { Min(p + 10, ProgressCeiling) }

  /** The progress after `n` ticks from `p`. */
  function Ticks(p: int, n: nat): int {
    if n == 0 then p else Tick(Ticks(p, n - 1))
  }

  /** From 0, the counter reads 10 per tick until it stops at 90. */
  lemma {:induction false} TicksFromZero(n: nat)
    ensures Ticks(0, n) == Min(10 * n, ProgressCeiling)
  {
    if n > 0 {
      TicksFromZero(n - 1);
    }
  }

  /** The form's input fields. */
  datatype Fields = Fields(file: Option<FileInfo>, videoSource: Option<string>, title: string,
                           description: string, category: string, tags: string)

  const EmptyFields: Fields := Fields(None, None, "", "", "", "")

  /** The form's state. */
  class VideoUploadForm {
    var fields: Fields
    var fileError: Option<string>
    var isUploaded: bool
    var progress: int
    var isLoading: bool

    /** The counter never leaves [0, 90] while the timer runs. */
    predicate ProgressInRange()
      reads this
    {
      0 <= progress <= ProgressCeiling
    }

    constructor ()
      ensures fields == EmptyFields && fileError.None?
      ensures progress == 0 && !isLoading && !isUploaded
    {
      fields := EmptyFields;
      fileError := None;
      isUploaded, isLoading := false, false;
      progress := 0;
    }

    /** `handleFileChange`: every field is reset first; a chosen file that is not
        a video or is over the limit leaves no file selected and an error; an
        acceptable one is selected and titled after its name. */
    method HandleFileChange(selected: Option<FileInfo>)
      modifies this
      ensures !isUploaded && progress == 0 && isLoading == old(isLoading)
      ensures selected.None? ==> fields == EmptyFields && fileError.None?
      ensures selected.Some? && !StartsWith(selected.value.mimeType, "video/") ==>
        fields == EmptyFields && fileError == Some(InvalidTypeError)
      ensures selected.Some? && StartsWith(selected.value.mimeType, "video/") && selected.value.size > MaxVideoBytes ==>
        fields == EmptyFields && fileError == Some(TooLargeError)
      ensures selected.Some? && AcceptableVideo(selected.value) ==>
        fields == EmptyFields.(file := selected, title := DefaultTitle(selected.value.name)) && fileError.None?
      ensures fields.file.Some? ==> AcceptableVideo(fields.file.value)
    {
      fields := EmptyFields;
      fileError := None;
      isUploaded := false;
      progress := 0;
      if selected.Some? {
        if !StartsWith(selected.value.mimeType, "video/") {
          fileError := Some(InvalidTypeError);
          return;
        }
        if selected.value.size > MaxVideoBytes {
          fileError := Some(TooLargeError);
          return;
        }
        fields := fields.(file := selected, title := DefaultTitle(selected.value.name));
      }
    }

    /** One timer tick during an upload. */
    method TickProgress()
      requires ProgressInRange()
      modifies this
      ensures ProgressInRange()
      ensures progress == Tick(old(progress))
      ensures progress >= old(progress)
      ensures fields == old(fields) && isLoading == old(isLoading)
    {
      progress := Min(progress + 10, ProgressCeiling);
    }

    /** `handleUpload`: without a file or with a blank title, or when not signed
        in, nothing is sent and nothing changes. Otherwise the request carries the
        trimmed fields and the parsed tags; `responseError` is the service's
        answer. Unless it carries a non-empty error the form is cleared and
        marked uploaded; in every case loading ends and the counter is back at 0. */
    method HandleUpload(authenticated: bool, responseError: Option<string>) returns (sent: Option<UploadRequest>)
      modifies this
      ensures !CanUpload(old(fields), authenticated) ==>
        && sent.None? && fields == old(fields) && isUploaded == old(isUploaded)
        && progress == old(progress) && isLoading == old(isLoading)
      ensures CanUpload(old(fields), authenticated) ==> sent == Some(RequestFor(old(fields)))
      ensures sent.Some? ==> !isLoading && progress == 0
      ensures sent.Some? && !Raised(responseError) ==> isUploaded && fields == EmptyFields
      ensures sent.Some? && Raised(responseError) ==> isUploaded == old(isUploaded) && fields == old(fields)
      ensures fileError == old(fileError)
    {
      sent := None;
      if !CanUpload(fields, authenticated) {
        return;
      }
      sent := Some(RequestFor(fields));
      FinishUpload(responseError);
    }

    /** What happens once the request has gone out: unless the answer carries a
        non-empty error the form is cleared and marked uploaded; loading ends
        and the counter is reset whatever the answer. */
    method FinishUpload(responseError: Option<string>)
      modifies this
      ensures !isLoading && progress == 0 && fileError == old(fileError)
      ensures !Raised(responseError) ==> isUploaded && fields == EmptyFields
      ensures Raised(responseError) ==> isUploaded == old(isUploaded) && fields == old(fields)
    {
      isLoading := true;
      progress := 100;
      if !Raised(responseError) {
        isUploaded := true;
        fields := EmptyFields;
      }
      isLoading := false;
      progress := 0;
    }
  }

  /** The upload guard: a selected file, a title that is not blank, a signed-in user. */
  predicate CanUpload(f: Fields, authenticated: bool) {
    f.file.Some? && Trim(f.title) != "" && authenticated
  }

  /** The request: trimmed text fields and the tags split on commas, trimmed,
      empty pieces dropped. */
  function RequestFor(f: Fields): (r: UploadRequest)
    requires f.file.Some?
    ensures r.file == f.file.value && r.title == Trim(f.title)
    ensures r.description == Trim(f.description) && r.category == Trim(f.category)
    ensures TagsAreListItems(r)
  {
    UploadRequest(f.file.value, Trim(f.title), Trim(f.description), Trim(f.category), ParseCommaList(f.tags))
  }

  /** A tag field without commas is one tag, or none when blank. */
  lemma SingleTag(f: Fields)
    requires f.file.Some? && ',' !in f.tags
    ensures RequestFor(f).tags == (if Trim(f.tags) == "" then [] else [Trim(f.tags)])
  {
    SplitAbsent(f.tags, ',');
  }

  /** Every tag sent is a non-empty, trimmed, comma-free piece. */
  predicate TagsAreListItems(r: UploadRequest) {
    forall i :: 0 <= i < |r.tags| ==> IsListItem(r.tags[i])
  }
}
