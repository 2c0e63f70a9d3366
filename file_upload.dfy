/**
 * components/FileUpload.tsx: the uploader's two state cells (`selectedFile`,
 * `dragActive`), the checks a chosen file goes through, and the drag, drop,
 * remove and upload handlers. The `disabled` prop is a field that the page sets.
 */
module FileUpload {
  import opened Wrappers
  import opened Web

  const ValidTypes: seq<string> := ["image/jpeg", "image/png", "image/jpg", "application/pdf"]

  /** 10 MiB. */
  const MaxSize: nat := 10 * 1024 * 1024

  /** The verdict of `handleFile` on a file: accepted, or the alert it shows. */
  datatype Verdict = Accepted | WrongType | TooLarge

  /** `handleFile`'s checks, the type first, then the size. */
  function Validate(file: File): (v: Verdict)
    ensures v == Accepted <==>
      (|| file.mimeType == "image/jpeg" || file.mimeType == "image/png"
       || file.mimeType == "image/jpg" || file.mimeType == "application/pdf")
      && file.size <= 10_485_760
    ensures v == WrongType <==> file.mimeType !in ValidTypes
    ensures v == TooLarge <==> file.mimeType in ValidTypes && file.size > 10_485_760
  {
    if file.mimeType !in ValidTypes then WrongType
    else if file.size > MaxSize then TooLarge
    else Accepted
  }

  /** The alert shown for a rejected file. */
  function AlertText(v: Verdict): (text: Option<string>)
    ensures text.None? <==> v == Accepted
  {
    match v
    case Accepted => None
    case WrongType => Some("Please upload only JPG, PNG, or PDF files")
    case TooLarge => Some("File size must be less than 10MB")
  }

  /** The `dragActive` flag after a drag event of the given type (`handleDrag`). */
  function DragActiveAfter(eventType: string, active: bool): (r: bool)
    ensures eventType == "dragenter" || eventType == "dragover" ==> r
    ensures eventType == "dragleave" ==> !r
    ensures eventType !in {"dragenter", "dragover", "dragleave"} ==> r == active
  {
    if eventType == "dragenter" || eventType == "dragover" then true
    else if eventType == "dragleave" then false
    else active
  }

  class Uploader {
    var selectedFile: Option<File>
    var dragActive: bool
    var disabled: bool

    constructor (disabled: bool)
      ensures selectedFile == None && !dragActive && this.disabled == disabled
    {
      selectedFile := None;
      dragActive := false;
      this.disabled := disabled;
    }

    /** A re-render with a new `disabled` prop; the state cells keep their values. */
    method SetDisabled(disabled: bool)
      modifies this`disabled
      ensures this.disabled == disabled
    {
      this.disabled := disabled;
    }

    /** `handleFile`: a file that passes both checks becomes the selection; a rejected one changes nothing. */
    method HandleFile(file: File) returns (alert: Option<string>)
      modifies this`selectedFile
      ensures alert == AlertText(Validate(file))
      ensures selectedFile == if Validate(file) == Accepted then Some(file) else old(selectedFile)
    {
      if file.mimeType !in ValidTypes {
        alert := Some("Please upload only JPG, PNG, or PDF files");
        return;
      }
      if file.size > MaxSize {
        alert := Some("File size must be less than 10MB");
        return;
      }
      selectedFile := Some(file);
      alert := None;
    }

    /** `handleDrag`. */
    method HandleDrag(eventType: string)
      modifies this`dragActive
      ensures dragActive == DragActiveAfter(eventType, old(dragActive))
    {
      if eventType == "dragenter" || eventType == "dragover" {
        dragActive := true;
      } else if eventType == "dragleave" {
        dragActive := false;
      }
    }

    /** `handleDrop`: the flag drops, and the first dropped file, if any, goes through `handleFile`. */
    method HandleDrop(files: seq<File>) returns (alert: Option<string>)
      modifies this`dragActive, this`selectedFile
      ensures !dragActive
      ensures files == [] ==> alert == None && selectedFile == old(selectedFile)
      ensures files != [] ==> alert == AlertText(Validate(files[0]))
      ensures files != [] ==>
        selectedFile == if Validate(files[0]) == Accepted then Some(files[0]) else old(selectedFile)
    {
      dragActive := false;
      alert := None;
      if files != [] {
        alert := HandleFile(files[0]);
      }
    }

    /** `handleFileChange`: the first chosen file, if any, goes through `handleFile`. */
    method HandleFileChange(files: seq<File>) returns (alert: Option<string>)
      modifies this`selectedFile
      ensures files == [] ==> alert == None && selectedFile == old(selectedFile)
      ensures files != [] ==> alert == AlertText(Validate(files[0]))
      ensures files != [] ==>
        selectedFile == if Validate(files[0]) == Accepted then Some(files[0]) else old(selectedFile)
    {
      alert := None;
      if files != [] {
        alert := HandleFile(files[0]);
      }
    }

    /** `removeFile`. */
    method RemoveFile()
      modifies this`selectedFile
      ensures selectedFile == None
    {
      selectedFile := None;
    }

    /** `handleUpload`: the file passed to `onFileUpload`, once, or `None` when nothing is selected. */
    method HandleUpload() returns (uploaded: Option<File>)
      ensures uploaded.Some? <==> selectedFile.Some?
      ensures uploaded.Some? ==> uploaded.value == selectedFile.value
    {
      uploaded := None;
      if selectedFile.Some? {
        uploaded := Some(selectedFile.value);
      }
    }

    // What reaches the handlers from the page. While `disabled`, the drop zone has
    // no drag or drop handlers and the input and the button are disabled, so
    // nothing reaches them.

    /** A dragenter, dragover or dragleave event on the drop zone. */
    method OnDragEvent(eventType: string)
      modifies this`dragActive
      ensures disabled ==> dragActive == old(dragActive)
      ensures !disabled ==> dragActive == DragActiveAfter(eventType, old(dragActive))
    {
      if !disabled {
        HandleDrag(eventType);
      }
    }

    /** A drop on the drop zone. */
    method OnDrop(files: seq<File>) returns (alert: Option<string>)
      modifies this`dragActive, this`selectedFile
      ensures disabled ==> alert == None && dragActive == old(dragActive) && selectedFile == old(selectedFile)
      ensures !disabled ==> !dragActive
      ensures !disabled && files != [] ==> alert == AlertText(Validate(files[0]))
      ensures !disabled && files != [] ==>
        selectedFile == if Validate(files[0]) == Accepted then Some(files[0]) else old(selectedFile)
      ensures !disabled && files == [] ==> alert == None && selectedFile == old(selectedFile)
    {
      alert := None;
      if !disabled {
        alert := HandleDrop(files);
      }
    }

    /** Files chosen through the input. */
    method OnInputChange(files: seq<File>) returns (alert: Option<string>)
      modifies this`selectedFile
      ensures disabled ==> alert == None && selectedFile == old(selectedFile)
      ensures !disabled && files != [] ==> alert == AlertText(Validate(files[0]))
      ensures !disabled && files != [] ==>
        selectedFile == if Validate(files[0]) == Accepted then Some(files[0]) else old(selectedFile)
      ensures !disabled && files == [] ==> alert == None && selectedFile == old(selectedFile)
    {
      alert := None;
      if !disabled {
        alert := HandleFileChange(files);
      }
    }

    /** A click on "Analyze Report": the file handed to the page, if any. */
    method OnAnalyzeClick() returns (uploaded: Option<File>)
      ensures disabled ==> uploaded == None
      ensures !disabled ==> uploaded == selectedFile
    {
      uploaded := None;
      if !disabled {
        uploaded := HandleUpload();
      }
    }
  }

  /** A wrong type is reported as such whatever the size: the type is checked first. */
  lemma TypeCheckedFirst(file: File)
    requires file.mimeType !in ValidTypes
    ensures Validate(file) == WrongType
    ensures AlertText(Validate(file)) == Some("Please upload only JPG, PNG, or PDF files")
  {
  }

  /** The size bound is inclusive: exactly 10 MiB passes, one byte more does not. */
  lemma SizeBoundInclusive(name: string, mimeType: string)
    requires mimeType in ValidTypes
    ensures Validate(File(name, 10_485_760, mimeType)) == Accepted
    ensures Validate(File(name, 10_485_761, mimeType)) == TooLarge
  {
  }
}
