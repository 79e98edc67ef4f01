/**
 * The load dialog: a file chosen through the picker or dropped on the drop
 * zone becomes the selected file, and loading reads it, parses it as JSON,
 * validates it against the workflow schema and hands the workflow to the
 * page, or shows why it could not.
 */
module LoadWorkflowDialog {
  import opened Wrappers
  import opened Json
  import opened Schema

  /** What reading a file's text and `JSON.parse` make of it. */
  datatype FileContent = Parsed(value: JValue) | Unparsable(message: string)

  datatype File = File(name: string, mimeType: string, content: FileContent)

  const JsonMimeType: string := "application/json"
  const NoFileMessage: string := "Please select a file"
  const DropMessage: string := "Please drop a valid JSON file"
  const InvalidPrefix: string := "Invalid workflow file: "

  /** Parsing and validating a file: the workflow, or the message of the error that stopped it. */
  function ReadWorkflow(f: File): (r: Result<Workflow, string>)
    ensures r.Success? <==> f.content.Parsed? && IsWorkflow(f.content.value)
    ensures r.Success? ==> ValidWorkflow(r.value)
    ensures f.content.Parsed? ==> r == ValidateWorkflow(f.content.value)
    ensures f.content.Unparsable? ==> r == Failure(f.content.message)
  {
    match f.content
    case Unparsable(message) => Failure(message)
    case Parsed(v) => ValidateWorkflow(v)
  }

  /** The JSON file a download of `w` holds. */
  function SavedFile(fileName: string, w: Workflow): File {
    File(fileName, JsonMimeType, Parsed(EncodeWorkflow(w)))
  }

  /** A saved file reads back as the workflow that was saved, provided no SLA in it is negative. */
  lemma SavedFileReadsBack(fileName: string, w: Workflow)
    ensures ReadWorkflow(SavedFile(fileName, w)).Success? <==> ValidWorkflow(w)
    ensures ValidWorkflow(w) ==> ReadWorkflow(SavedFile(fileName, w)) == Success(w)
  {
  }

  /** A message shown after a failed read never reads as the missing-file message. */
  lemma InvalidMessageDistinct(message: string)
    ensures InvalidPrefix + message != NoFileMessage
  {
    assert |InvalidPrefix + message| > |NoFileMessage|;
  }

  class LoadDialog {
    var open: bool
    var selectedFile: Option<File>
    var error: Option<string>

    constructor ()
      ensures !open && selectedFile == None && error == None
    {
      open := false;
      selectedFile := None;
      error := None;
    }

    /** The page's Load button opens the dialog. */
    method Open()
      modifies this
      ensures open && selectedFile == old(selectedFile) && error == old(error)
    {
      open := true;
    }

    /** The Load Workflow button is enabled only while a file is selected. */
    predicate LoadEnabled()
      reads this
    {
      selectedFile.Some?
    }

    /** The file picker: the first chosen file is selected and the error cleared; choosing none changes nothing. */
    method PickFile(files: seq<File>)
      modifies this
      ensures |files| > 0 ==> selectedFile == Some(files[0]) && error == None
      ensures |files| == 0 ==> selectedFile == old(selectedFile) && error == old(error)
      ensures open == old(open)
    {
      if |files| > 0 {
        selectedFile := Some(files[0]);
        error := None;
      }
    }

    /**
     * The drop zone: the first dropped file is selected when its type is JSON;
     * otherwise the error is shown and the earlier selection stays.
     */
    method DropFiles(files: seq<File>)
      modifies this
      ensures |files| > 0 && files[0].mimeType == JsonMimeType ==> selectedFile == Some(files[0]) && error == None
      ensures !(|files| > 0 && files[0].mimeType == JsonMimeType) ==>
        selectedFile == old(selectedFile) && error == Some(DropMessage)
      ensures open == old(open)
    {
      if |files| > 0 && files[0].mimeType == JsonMimeType {
        selectedFile := Some(files[0]);
        error := None;
      } else {
        error := Some(DropMessage);
      }
    }

    /**
     * Loading: without a selection only the error is set; a file that fails to
     * parse or validate keeps the dialog as it is and shows the reason; a valid
     * file is handed over and the dialog closes and forgets the file.
     */
    method Load() returns (loaded: Option<Workflow>)
      modifies this
      ensures old(selectedFile).None? ==>
        loaded == None && error == Some(NoFileMessage) && selectedFile == None && open == old(open)
      ensures old(selectedFile).Some? && ReadWorkflow(old(selectedFile).value).Failure? ==>
        && loaded == None
        && error == Some(InvalidPrefix + ReadWorkflow(old(selectedFile).value).error)
        && selectedFile == old(selectedFile) && open == old(open)
      ensures old(selectedFile).Some? && ReadWorkflow(old(selectedFile).value).Success? ==>
        && loaded == Some(ReadWorkflow(old(selectedFile).value).value)
        && !open && selectedFile == None && error == None
      ensures loaded.Some? ==> ValidWorkflow(loaded.value)
      ensures old(LoadEnabled()) ==> error != Some(NoFileMessage)
    {
      if selectedFile.None? {
        error := Some(NoFileMessage);
        return None;
      }
      match ReadWorkflow(selectedFile.value)
      case Failure(message) =>
        InvalidMessageDistinct(message);
        error := Some(InvalidPrefix + message);
        loaded := None;
      case Success(w) =>
        loaded := Some(w);
        open := false;
        selectedFile := None;
        error := None;
    }

    /** The Cancel button only closes the dialog; the selection and any error stay. */
    method Cancel()
      modifies this
      ensures !open && selectedFile == old(selectedFile) && error == old(error)
    {
      open := false;
    }

    /** The dialog opening or closing itself (Escape, the close button, a click outside): closing forgets the file and the error. */
    method SetOpen(o: bool)
      modifies this
      ensures open == o
      ensures !o ==> selectedFile == None && error == None
      ensures o ==> selectedFile == old(selectedFile) && error == old(error)
    {
      open := o;
      if !o {
        selectedFile := None;
        error := None;
      }
    }
  }
}
