/**
 * The drop zone that picks one image: the MIME-type gate, the data-URL
 * preview read, and the notifications sent to the owning page.
 *
 * The FileReader is split in two: `HandleFile` starts the read, and
 * `ReadSettled` is its later onload/onerror with the file the read was
 * started for. Every call of the `onImageSelected` prop is recorded, in
 * order, in `notices`.
 */
module ImageUploader {
  import opened Wrappers
  import opened Browser
  import opened JsString

  const ImagePrefix := "image/"
  const InvalidTypeAlert := "Please upload an image file (JPG, PNG, etc.)"

  /** One call of `onImageSelected(file, previewUrl)`. */
  datatype Notice = Notice(file: Option<File>, previewUrl: Option<string>)

  /** A rejected file raises an alert; an accepted one starts a read. */
  datatype FileOutcome = Rejected(alert: string) | Reading

  predicate IsImage(file: File)
  {
    StartsWith(file.mimeType, ImagePrefix)
  }

  /** A file passes the gate exactly when its MIME type is "image/" followed by any subtype, the empty one included. */
  lemma ImageGate(file: File)
    ensures IsImage(file) <==> exists subtype :: file.mimeType == ImagePrefix + subtype
  {
    if IsImage(file) {
      assert file.mimeType == ImagePrefix + file.mimeType[|ImagePrefix|..];
    }
  }

  /** The first file of a FileList, if any; drop and change use no other. */
  function FirstFile(files: seq<File>): (r: Option<File>)
    ensures r.Some? <==> files != []
    ensures r.Some? ==> r.value == files[0]
  {
    if files == [] then None else Some(files[0])
  }

  class ImageUploader {
    var isDragging: bool
    var imagePreview: Option<string>
    var selectedFile: Option<File>
    /** The hidden file input's value; `removeImage` resets it to "". */
    var inputValue: string
    var notices: seq<Notice>

    constructor ()
      ensures !isDragging && imagePreview == None && selectedFile == None
      ensures inputValue == "" && notices == []
    {
      isDragging := false;
      imagePreview := None;
      selectedFile := None;
      inputValue := "";
      notices := [];
    }

    /** removeImage: file and preview cleared, the parent told (null, null), the input reset. */
    method RemoveImage()
      modifies this
      ensures imagePreview == None && selectedFile == None && inputValue == ""
      ensures notices == old(notices) + [Notice(None, None)]
      ensures isDragging == old(isDragging)
    {
      imagePreview := None;
      selectedFile := None;
      notices := notices + [Notice(None, None)];
      inputValue := "";
    }

    /**
     * handleFile: a non-image is rejected with an alert and removes the
     * current image; an image becomes the selected file at once and its
     * read starts, the preview staying as it was until the read settles.
     */
    method HandleFile(file: File) returns (outcome: FileOutcome)
      modifies this
      ensures outcome.Reading? <==> IsImage(file)
      ensures outcome.Rejected? ==>
        outcome.alert == InvalidTypeAlert
        && imagePreview == None && selectedFile == None && inputValue == ""
        && notices == old(notices) + [Notice(None, None)]
      ensures outcome.Reading? ==>
        selectedFile == Some(file) && imagePreview == old(imagePreview)
        && inputValue == old(inputValue) && notices == old(notices)
      ensures isDragging == old(isDragging)
    {
      if !StartsWith(file.mimeType, ImagePrefix) {
        RemoveImage();
        return Rejected(InvalidTypeAlert);
      }
      selectedFile := Some(file);
      outcome := Reading;
    }

    /**
     * The read of `file` settling: a string result becomes the preview and
     * is reported with the file; an error or a non-string result removes
     * the image.
     */
    method ReadSettled(file: File, result: Option<string>)
      requires IsImage(file)
      modifies this
      ensures result.Some? ==>
        imagePreview == result && notices == old(notices) + [Notice(Some(file), result)]
        && selectedFile == old(selectedFile) && inputValue == old(inputValue)
      ensures result.None? ==>
        imagePreview == None && selectedFile == None && inputValue == ""
        && notices == old(notices) + [Notice(None, None)]
      ensures isDragging == old(isDragging)
    {
      if result.Some? {
        imagePreview := result;
        notices := notices + [Notice(Some(file), result)];
      } else {
        RemoveImage();
      }
    }

    /** handleDrop: dragging ends, and the first dropped file, if any, is handled. */
    method HandleDrop(files: seq<File>) returns (outcome: Option<FileOutcome>)
      modifies this
      ensures !isDragging
      ensures outcome.Some? <==> files != []
      ensures files == [] ==>
        imagePreview == old(imagePreview) && selectedFile == old(selectedFile)
        && inputValue == old(inputValue) && notices == old(notices)
      ensures files != [] ==> (outcome.value.Reading? <==> IsImage(files[0]))
      ensures files != [] && IsImage(files[0]) ==>
        selectedFile == Some(files[0]) && imagePreview == old(imagePreview)
        && inputValue == old(inputValue) && notices == old(notices)
      ensures files != [] && !IsImage(files[0]) ==>
        outcome.value == Rejected(InvalidTypeAlert)
        && imagePreview == None && selectedFile == None && inputValue == ""
        && notices == old(notices) + [Notice(None, None)]
    {
      isDragging := false;
      var first := FirstFile(files);
      if first.None? {
        return None;
      }
      var handled := HandleFile(first.value);
      outcome := Some(handled);
    }

    /**
     * handleFileChange: the first chosen file, if any, is handled; a missing
     * file list counts as an empty one.
     */
    method HandleFileChange(files: seq<File>) returns (outcome: Option<FileOutcome>)
      modifies this
      ensures outcome.Some? <==> files != []
      ensures files == [] ==>
        imagePreview == old(imagePreview) && selectedFile == old(selectedFile)
        && inputValue == old(inputValue) && notices == old(notices)
      ensures files != [] ==> (outcome.value.Reading? <==> IsImage(files[0]))
      ensures files != [] && IsImage(files[0]) ==>
        selectedFile == Some(files[0]) && imagePreview == old(imagePreview)
        && inputValue == old(inputValue) && notices == old(notices)
      ensures files != [] && !IsImage(files[0]) ==>
        outcome.value == Rejected(InvalidTypeAlert)
        && imagePreview == None && selectedFile == None && inputValue == ""
        && notices == old(notices) + [Notice(None, None)]
      ensures isDragging == old(isDragging)
    {
      var first := FirstFile(files);
      if first.None? {
        return None;
      }
      var handled := HandleFile(first.value);
      outcome := Some(handled);
    }

    method HandleDragOver()
      modifies this
      ensures isDragging
      ensures imagePreview == old(imagePreview) && selectedFile == old(selectedFile)
      ensures inputValue == old(inputValue) && notices == old(notices)
    {
      isDragging := true;
    }

    method HandleDragLeave()
      modifies this
      ensures !isDragging
      ensures imagePreview == old(imagePreview) && selectedFile == old(selectedFile)
      ensures inputValue == old(inputValue) && notices == old(notices)
    {
      isDragging := false;
    }
  }

  /**
   * Removing twice leaves the uploader as removing once does; only the
   * parent hears (null, null) a second time.
   */
  method RemoveTwice(u: ImageUploader)
    modifies u
    ensures u.imagePreview == None && u.selectedFile == None && u.inputValue == ""
    ensures u.notices == old(u.notices) + [Notice(None, None), Notice(None, None)]
    ensures u.isDragging == old(u.isDragging)
  {
    u.RemoveImage();
    u.RemoveImage();
  }

  /**
   * Reads are never cancelled: when an image is removed (here by a rejected
   * second file) while its read is still running, the read settling later
   * shows its preview with no file selected.
   */
  method StaleRead(u: ImageUploader, image: File, other: File, url: string)
    requires IsImage(image) && !IsImage(other)
    modifies u
    ensures u.imagePreview == Some(url) && u.selectedFile == None
    ensures u.notices == old(u.notices) + [Notice(None, None), Notice(Some(image), Some(url))]
  {
    var started := u.HandleFile(image);
    var rejected := u.HandleFile(other);
    u.ReadSettled(image, Some(url));
  }
}
