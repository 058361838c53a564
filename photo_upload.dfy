/** The photo picker (src/components/PhotoUpload.tsx): file validation, the
    drag-highlight flag, clearing the picked image and which of its three
    faces it shows. What the component hands to its `onImageSelect` callback
    is returned as `Option<string>` (None: the callback is not called). */
module PhotoUpload {
  import opened Strings
  import opened AnalysisTypes

  const MAX_IMAGE_BYTES: int := 5 * 1024 * 1024

  datatype FileInfo = FileInfo(mimeType: string, size: int)

  datatype Validation = Accepted | NotAnImage | TooLarge

  /** The checks of `handleFileSelect`, type first, then size. */
  function ValidateFile(f: FileInfo): (v: Validation)
    ensures v == Accepted <==> StartsWith(f.mimeType, "image/") && f.size <= MAX_IMAGE_BYTES
    ensures v == NotAnImage <==> !StartsWith(f.mimeType, "image/")
    ensures v == TooLarge ==> f.size > MAX_IMAGE_BYTES
  {
    if !StartsWith(f.mimeType, "image/") then NotAnImage
    else if f.size > MAX_IMAGE_BYTES then TooLarge
    else Accepted
  }

  /** `handleFileSelect`: an accepted file is read as a data URL (`dataUrl`,
      produced by the browser's FileReader) and handed to `onImageSelect`;
      a rejected one hands over nothing. */
  function FileSelection(f: FileInfo, dataUrl: string): (r: Option<string>)
    ensures r.Some? <==> ValidateFile(f) == Accepted
    ensures r.Some? ==> r.value == dataUrl
  {
    if ValidateFile(f) == Accepted then Some(dataUrl) else None
  }

  /** A file of exactly 5 MiB passes; one byte more does not. */
  lemma SizeLimitBoundary(mimeType: string)
    requires StartsWith(mimeType, "image/")
    ensures ValidateFile(FileInfo(mimeType, 5242880)) == Accepted
    ensures ValidateFile(FileInfo(mimeType, 5242881)) == TooLarge
  {
  }

  /** The type check comes first: an oversized file that is not an image is
      reported as not an image. */
  lemma TypeCheckedBeforeSize(f: FileInfo)
    requires !StartsWith(f.mimeType, "image/") && f.size > MAX_IMAGE_BYTES
    ensures ValidateFile(f) == NotAnImage
  {
  }

  /** Which face the component renders. */
  datatype RenderMode = Spinner | ImagePreview | DropZone

  /** The preview shows a present, non-empty image when nothing is loading;
      loading always shows the spinner; otherwise the drop zone. */
  function RenderModeOf(uploadedImage: Option<string>, loading: bool): (m: RenderMode)
    ensures loading ==> m == Spinner
    ensures m == ImagePreview <==> Truthy(uploadedImage) && !loading
    ensures m == DropZone <==> !Truthy(uploadedImage) && !loading
  {
    if Truthy(uploadedImage) && !loading then ImagePreview
    else if loading then Spinner
    else DropZone
  }

  const DRAG_ENTER := "dragenter"
  const DRAG_OVER := "dragover"
  const DRAG_LEAVE := "dragleave"

  /** The component's own state: the drag-highlight flag. */
  class Uploader {
    var dragActive: bool

    constructor()
      ensures !dragActive
    {
      dragActive := false;
    }

    /** `handleDrag`: entering or hovering lights the drop zone, leaving
        darkens it, any other event type leaves it as it was. */
    method HandleDrag(eventType: string)
      modifies this
      ensures eventType == DRAG_ENTER || eventType == DRAG_OVER ==> dragActive
      ensures eventType == DRAG_LEAVE ==> !dragActive
      ensures eventType != DRAG_ENTER && eventType != DRAG_OVER && eventType != DRAG_LEAVE ==>
        dragActive == old(dragActive)
    {
      if eventType == DRAG_ENTER || eventType == DRAG_OVER {
        dragActive := true;
      } else if eventType == DRAG_LEAVE {
        dragActive := false;
      }
    }

    /** `handleDrop`: always darkens the drop zone, then selects the first
        dropped file, if any, as `handleFileSelect` does. */
    method HandleDrop(file: Option<FileInfo>, dataUrl: string) returns (selected: Option<string>)
      modifies this
      ensures !dragActive
      ensures selected.Some? <==> file.Some? && ValidateFile(file.value) == Accepted
      ensures selected.Some? ==> selected.value == dataUrl
    {
      dragActive := false;
      selected := None;
      if file.Some? {
        selected := FileSelection(file.value, dataUrl);
      }
    }

    /** `handleFileInput`: the first file chosen in the file dialog, if any;
        the drag flag is not touched. */
    method HandleFileInput(file: Option<FileInfo>, dataUrl: string) returns (selected: Option<string>)
      ensures selected.Some? <==> file.Some? && ValidateFile(file.value) == Accepted
      ensures selected.Some? ==> selected.value == dataUrl
    {
      selected := None;
      if file.Some? {
        selected := FileSelection(file.value, dataUrl);
      }
    }

    /** `clearImage`: hands the empty string to `onImageSelect`, which the app
        treats as a reset (App.HandleImageSelect). */
    method ClearImage() returns (selected: Option<string>)
      ensures selected == Some("")
      ensures !Truthy(selected)
    {
      selected := Some("");
    }
  }
}
