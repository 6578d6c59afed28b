/**
 * The application page: a three-state machine that takes a chosen photo from the
 * upload screen to the processing screen (background removal) and from there to the
 * editor, with a processing error returning to the upload screen.
 */
module AppHome {
  import opened Common

  datatype AppState = Upload | Processing | Editor

  /** The cut-out produced by background removal, as the bytes of the blob. */
  datatype Blob = Blob(bytes: seq<bv8>)

  datatype ProcessedImages = ProcessedImages(original: string, processed: Blob)

  /** What the page renders. The upload screen carries the error banner it shows, if any. */
  datatype Screen =
    | ProcessingView(file: FileInfo)
    | EditorView(images: ProcessedImages)
    | UploadView(banner: Option<string>)

  /**
   * The page's render branches. The processing screen needs a file and the editor needs
   * images; whenever the state and its data disagree the upload screen is the fallback.
   * The banner follows JavaScript truthiness: an empty message is not shown.
   */
  function ScreenFor(state: AppState, selectedFile: Option<FileInfo>,
                     processedImages: Option<ProcessedImages>, error: Option<string>): (s: Screen)
    ensures s.ProcessingView? <==> state == Processing && selectedFile.Some?
    ensures s.ProcessingView? ==> s.file == selectedFile.value
    ensures s.EditorView? <==> state == Editor && processedImages.Some?
    ensures s.EditorView? ==> s.images == processedImages.value
    ensures s.UploadView? ==> (s.banner.Some? <==> error.Some? && error.value != "")
    ensures s.UploadView? && s.banner.Some? ==> s.banner == error
  {
    if state == Processing && selectedFile.Some? then ProcessingView(selectedFile.value)
    else if state == Editor && processedImages.Some? then EditorView(processedImages.value)
    else UploadView(if error.Some? && error.value != "" then error else None)
  }

  /**
   * What the handlers keep true of the page's fields: processing always has a file,
   * the editor always has images, and only image files are ever stored.
   */
  predicate Consistent(state: AppState, selectedFile: Option<FileInfo>, processedImages: Option<ProcessedImages>) {
    && (state == Processing ==> selectedFile.Some?)
    && (state == Editor ==> processedImages.Some?)
    && (selectedFile.Some? ==> IsImageType(selectedFile.value))
  }

  /** With consistent fields the fallback never fires: the screen is the one the state names. */
  lemma ScreenFollowsState(state: AppState, selectedFile: Option<FileInfo>,
                           processedImages: Option<ProcessedImages>, error: Option<string>)
    requires Consistent(state, selectedFile, processedImages)
    ensures var s := ScreenFor(state, selectedFile, processedImages, error);
            && (s.ProcessingView? <==> state == Processing)
            && (s.EditorView? <==> state == Editor)
            && (s.UploadView? <==> state == Upload)
            && (s.ProcessingView? ==> IsImageType(s.file))
  {
  }

  class App {
    var currentState: AppState
    var selectedFile: Option<FileInfo>
    var processedImages: Option<ProcessedImages>
    var error: Option<string>

    ghost predicate Valid()
      reads this
    {
      Consistent(currentState, selectedFile, processedImages)
    }

    /** The page starts on the upload screen with nothing selected and no error. */
    constructor()
      ensures Valid()
      ensures currentState == Upload && selectedFile == None && processedImages == None && error == None
    {
      currentState := Upload;
      selectedFile := None;
      processedImages := None;
      error := None;
    }

    /** The screen the page renders now. */
    function CurrentScreen(): Screen
      reads this
    {
      ScreenFor(currentState, selectedFile, processedImages, error)
    }

    /**
     * handleFileSelect: the first chosen file, if its type starts with "image/", is stored,
     * the page moves to processing and the error is cleared; no file, or any other type,
     * changes nothing.
     */
    method HandleFileSelect(file: Option<FileInfo>)
      requires Valid()
      modifies this`selectedFile, this`currentState, this`error
      ensures Valid()
      ensures if file.Some? && IsImageType(file.value) then
                selectedFile == file && currentState == Processing && error == None
              else
                selectedFile == old(selectedFile) && currentState == old(currentState) && error == old(error)
    {
      if file.Some? && IsImageType(file.value) {
        selectedFile := file;
        currentState := Processing;
        error := None;
      }
    }

    /** handleProcessingComplete: both images are stored and the editor opens. */
    method HandleProcessingComplete(original: string, processed: Blob)
      requires Valid()
      modifies this`processedImages, this`currentState
      ensures Valid()
      ensures processedImages == Some(ProcessedImages(original, processed)) && currentState == Editor
      ensures CurrentScreen() == EditorView(ProcessedImages(original, processed))
    {
      processedImages := Some(ProcessedImages(original, processed));
      currentState := Editor;
    }

    /** handleProcessingError: the message is recorded and the page returns to upload; the file stays. */
    method HandleProcessingError(message: string)
      requires Valid()
      modifies this`error, this`currentState
      ensures Valid()
      ensures error == Some(message) && currentState == Upload
      ensures CurrentScreen() == UploadView(if message != "" then Some(message) else None)
    {
      error := Some(message);
      currentState := Upload;
    }
  }

  /**
   * A whole run through the page: an image is chosen, processing fails, the same image is
   * chosen again and processing succeeds. The error banner is gone and the editor shows
   * the new images.
   */
  method RetryAfterError(app: App, file: FileInfo, message: string, original: string, processed: Blob)
    requires app.Valid() && IsImageType(file)
    modifies app
    ensures app.Valid()
    ensures app.CurrentScreen() == EditorView(ProcessedImages(original, processed))
    ensures app.error == None && app.selectedFile == Some(file)
  {
    app.HandleFileSelect(Some(file));
    assert app.CurrentScreen() == ProcessingView(file);
    app.HandleProcessingError(message);
    app.HandleFileSelect(Some(file));
    app.HandleProcessingComplete(original, processed);
  }
}
