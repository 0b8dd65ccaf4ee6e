/** The profile picture uploader: the file checks on selection, the square
    centre crop drawn before upload, and the selection state around upload and
    cancel. The image is sent as a JPEG data URL, which the profile update view
    parses back into its payload. */
module ImageUpload {
  import opened Common
  import opened Text
  import opened Profiles

  datatype FileInfo = FileInfo(name: string, mimeType: string, size: nat)

  const AllowedImageTypes: seq<string> := ["image/jpeg", "image/jpg", "image/png", "image/webp"]
  const MaxImageBytes: nat := 5 * 1024 * 1024

  /** The selection checks: one of the four image types and at most 5 MiB. */
  predicate AcceptableImage(f: FileInfo) {
    f.mimeType in AllowedImageTypes && f.size <= MaxImageBytes
  }

  // ---------------------------------------------------------------------------
  // Crop geometry
  // ---------------------------------------------------------------------------

  const CropSize: real := 300.0

  /** Where the image is drawn on the 300 x 300 canvas. */
  datatype Placement = Placement(scale: real, width: real, height: real, offsetX: real, offsetY: real)

  /** `processImageToBase64`'s geometry: scale so the shorter side is 300, then
      centre, so the longer side overflows equally on both ends. */
  function CropPlacement(imageWidth: real, imageHeight: real): (p: Placement)
    requires imageWidth > 0.0 && imageHeight > 0.0
    ensures p.width == imageWidth * p.scale && p.height == imageHeight * p.scale && p.scale > 0.0
    ensures p.width >= CropSize && p.height >= CropSize
    ensures p.width == CropSize || p.height == CropSize
    ensures imageWidth <= imageHeight ==> p.width == CropSize && p.offsetX == 0.0
    ensures imageHeight <= imageWidth ==> p.height == CropSize && p.offsetY == 0.0
    ensures 2.0 * p.offsetX + p.width == CropSize && 2.0 * p.offsetY + p.height == CropSize
    ensures p.offsetX <= 0.0 && p.offsetY <= 0.0
  {
    var minDimension := if imageWidth <= imageHeight then imageWidth else imageHeight;
    var scale := CropSize / minDimension;
    var w := imageWidth * scale;
    var h := imageHeight * scale;
    ScaledSideCovers(imageWidth, minDimension);
    ScaledSideCovers(imageHeight, minDimension);
    Placement(scale, w, h, (CropSize - w) / 2.0, (CropSize - h) / 2.0)
  }

  /** A side no shorter than the shorter side reaches the canvas once scaled,
      and the shorter side reaches it exactly. */
  lemma ScaledSideCovers(side: real, minDimension: real)
    requires side >= minDimension > 0.0
    ensures side * (CropSize / minDimension) >= CropSize
    ensures side == minDimension ==> side * (CropSize / minDimension) == CropSize
  {
    var scale := CropSize / minDimension;
    assert minDimension * scale == CropSize;
    assert (side - minDimension) * scale >= 0.0;
  }

  /** The drawn image keeps the picture's aspect ratio and covers the canvas. */
  lemma CropCoversCanvas(imageWidth: real, imageHeight: real)
    requires imageWidth > 0.0 && imageHeight > 0.0
    ensures var p := CropPlacement(imageWidth, imageHeight);
      && p.width * imageHeight == p.height * imageWidth
      && p.offsetX <= 0.0 && p.offsetX + p.width >= CropSize
      && p.offsetY <= 0.0 && p.offsetY + p.height >= CropSize
  {
    var p := CropPlacement(imageWidth, imageHeight);
    assert p.width * imageHeight == imageWidth * p.scale * imageHeight;
    assert p.height * imageWidth == imageHeight * p.scale * imageWidth;
  }

  /** A square picture fills the canvas exactly. */
  lemma SquareFillsExactly(side: real)
    requires side > 0.0
    ensures CropPlacement(side, side) == Placement(CropSize / side, CropSize, CropSize, 0.0, 0.0)
  {
  }

  // ---------------------------------------------------------------------------
  // What is sent
  // ---------------------------------------------------------------------------

  const JpegHeader: string := "data:image/jpeg"

  /** `canvas.toDataURL('image/jpeg', ...)`: the base64 payload behind the JPEG header. */
  function JpegDataUrl(payload: string): string {
    JpegHeader + DataUrlMarker + payload
  }

  /** The profile update view reads the uploader's data URL back as the same
      payload with extension `jpeg`, provided the payload decodes. */
  lemma JpegDataUrlParses(payload: string, decodes: string -> bool)
    requires !Includes(payload, DataUrlMarker) && decodes(payload)
    ensures ParseAvatarData(JpegDataUrl(payload), decodes) == AvatarData(payload, "jpeg")
  {
    var data := JpegDataUrl(payload);
    assert DataUrlMarker[0] == ';';
    assert ';' !in JpegHeader;
    SplitAtFirstSep(JpegHeader, DataUrlMarker, payload);
    SplitWithoutSep(payload, DataUrlMarker);
    assert SplitOn(data, DataUrlMarker) == [JpegHeader, payload];
    assert StartsWith(data, "data:image") by {
      assert data[..10] == JpegHeader[..10];
    }
    assert JpegHeader == "data:image" + ['/'] + "jpeg";
    SplitAtFirst("data:image", '/', "jpeg");
    SplitAbsent("jpeg", '/');
  }

  /** What the upload sends: the cropped picture and the original file name. */
  datatype AvatarRequest = AvatarRequest(avatarData: string, avatarFilename: string)

  /** The value handed to the page after an upload: `avatar_url`, else `avatar`,
      when either is a non-empty string. */
  function UpdatedImage(avatarUrl: Option<string>, avatar: Option<string>): (r: Option<string>)
    ensures r.Some? ==> r.value != ""
    ensures r.None? <==> (avatarUrl.None? || avatarUrl.value == "") && (avatar.None? || avatar.value == "")
    ensures avatarUrl.Some? && avatarUrl.value != "" ==> r == avatarUrl
  {
    if avatarUrl.Some? && avatarUrl.value != "" then avatarUrl
    else if avatar.Some? && avatar.value != "" then avatar
    else None
  }

  /** The uploader's state. */
  class ImageUploader {
    var selectedFile: Option<FileInfo>
    var previewUrl: Option<string>
    var showPreview: bool
    var isUploading: bool

    /** A selected file always passed the checks. */
    predicate Valid()
      reads this
    {
      selectedFile.Some? ==> AcceptableImage(selectedFile.value)
    }

    constructor ()
      ensures Valid() && selectedFile.None? && previewUrl.None? && !showPreview && !isUploading
    {
      selectedFile, previewUrl := None, None;
      showPreview, isUploading := false, false;
    }

    /** `handleFileSelect`: no file, a type outside the list or a file over 5 MiB
        leave everything as it was; otherwise the file is selected (the preview
        arrives later, see `PreviewLoaded`). */
    method HandleFileSelect(file: Option<FileInfo>)
      requires Valid()
      modifies this
      ensures Valid()
      ensures file.Some? && AcceptableImage(file.value) ==> selectedFile == file
      ensures !(file.Some? && AcceptableImage(file.value)) ==> selectedFile == old(selectedFile)
      ensures previewUrl == old(previewUrl) && showPreview == old(showPreview) && isUploading == old(isUploading)
    {
      if file.None? {
        return;
      }
      if file.value.mimeType !in AllowedImageTypes {
        return;
      }
      if file.value.size > MaxImageBytes {
        return;
      }
      selectedFile := file;
    }

    /** The file reader finished: the preview is shown. */
    method PreviewLoaded(url: string)
      requires Valid()
      modifies this
      ensures Valid()
      ensures previewUrl == Some(url) && showPreview
      ensures selectedFile == old(selectedFile) && isUploading == old(isUploading)
    {
      previewUrl := Some(url);
      showPreview := true;
    }

    /** `handleUpload`: does nothing without a selected file. `cropped` is the
        cropped picture's base64 payload, or None when the canvas or the image
        could not be used; `responseError` is the service's answer. Only an
        answer without an error (a missing or empty one) clears the selection;
        uploading ends either way. */
    method HandleUpload(cropped: Option<string>, responseError: Option<string>) returns (sent: Option<AvatarRequest>)
      requires Valid()
      modifies this
      ensures Valid()
      ensures old(selectedFile).None? ==> (sent.None? && selectedFile.None?
        && previewUrl == old(previewUrl) && showPreview == old(showPreview) && isUploading == old(isUploading))
      ensures old(selectedFile).Some? ==> !isUploading
      ensures old(selectedFile).Some? && cropped.Some? ==>
        sent == Some(AvatarRequest(JpegDataUrl(cropped.value), old(selectedFile).value.name))
      ensures cropped.None? ==> sent.None?
      ensures sent.Some? && !Raised(responseError) ==> selectedFile.None? && previewUrl.None? && !showPreview
      ensures !(sent.Some? && !Raised(responseError)) ==>
        (selectedFile == old(selectedFile) && previewUrl == old(previewUrl) && showPreview == old(showPreview))
    {
      sent := None;
      if selectedFile.None? {
        return;
      }
      isUploading := true;
      if cropped.Some? {
        sent := Some(AvatarRequest(JpegDataUrl(cropped.value), selectedFile.value.name));
        if !Raised(responseError) {
          selectedFile, previewUrl := None, None;
          showPreview := false;
        }
      }
      isUploading := false;
    }

    /** `handleCancel`: the selection and its preview are dropped. */
    method HandleCancel()
      requires Valid()
      modifies this
      ensures Valid()
      ensures selectedFile.None? && previewUrl.None? && !showPreview
      ensures isUploading == old(isUploading)
    {
      selectedFile, previewUrl := None, None;
      showPreview := false;
    }
  }
}
