/**
 * The analyze tab's upload form: the file validator, the storage file name,
 * the error-message choice and the state the handlers update. The upload
 * itself and the two delays are asynchronous; each point where
 * `handleUpload` resumes is an event of its own.
 */
module AnalyzeTab {
  import opened Wrappers
  import opened JsString
  import opened SupabaseService
  import opened MockBookData

  datatype Status = Idle | Uploading | Parsing | Analyzing | Completed | Error

  /** The file picked in the file input: its name, MIME type and size in bytes. */
  datatype SelectedFile = SelectedFile(name: string, mimeType: string, size: nat)

  /** 10 MB. */
  const MaxFileSize: nat := 10 * 1024 * 1024

  const NotTextMessage := "Please upload a .txt file"
  const TooLargeMessage := "File size exceeds the maximum limit of 10MB"
  const NoFileMessage := "Please select a file to upload"
  const NoTitleMessage := "Please enter a book title"
  const UnknownError := "An unknown error occurred."
  const FailurePrefix := "Upload failed: "

  // ----- file validation -----

  /** Plain text by MIME type or by extension. */
  predicate IsTextFile(f: SelectedFile) {
    f.mimeType == "text/plain" || EndsWith(f.name, ".txt")
  }

  /**
   * The message `handleFileChange` shows for a picked file, or None when it
   * is accepted. The type check comes first, so a large non-text file gets
   * the type message.
   */
  function FileRejection(f: SelectedFile): (r: Option<string>)
    ensures r.None? <==> IsTextFile(f) && f.size <= MaxFileSize
    ensures !IsTextFile(f) ==> r == Some(NotTextMessage)
    ensures IsTextFile(f) && f.size > MaxFileSize ==> r == Some(TooLargeMessage)
  {
    if f.mimeType != "text/plain" && !EndsWith(f.name, ".txt") then Some(NotTextMessage)
    else if f.size > 10 * 1024 * 1024 then Some(TooLargeMessage)
    else None
  }

  /** The limit is inclusive: exactly 10485760 bytes is accepted, one more is not. */
  lemma SizeLimitInclusive(name: string)
    ensures MaxFileSize == 10485760
    ensures FileRejection(SelectedFile(name, "text/plain", 10485760)).None?
    ensures FileRejection(SelectedFile(name, "text/plain", 10485761)) == Some(TooLargeMessage)
  {
  }

  // ----- the storage name -----

  /**
   * `${safeFileName}.txt`: the title run through the same trim, lower-case,
   * collapse and strip chain as `formatBookTitle`, with the extension added.
   */
  function SafeFileName(title: string): (n: string)
    ensures n == FormatBookTitle(title) + ".txt"
  {
    StripEdgeDashes(CollapseSeparators(ToLower(Trim(title)))) + ".txt"
  }

  /** The file name is a slug followed by the extension. */
  lemma SafeFileNameIsSlug(title: string)
    ensures EndsWith(SafeFileName(title), ".txt")
    ensures IsSlug(SafeFileName(title)[..|SafeFileName(title)| - 4])
  {
    var stem := FormatBookTitle(title);
    assert (stem + ".txt")[..|stem|] == stem;
  }

  /** The uploaded file is named after the key the dashboard's queries look the book up by. */
  lemma UploadedNameMatchesQueries(title: string)
    ensures SafeFileName(title) == BookMetricsQuery(title).value + ".txt"
    ensures SafeFileName(title) == ChapterMetricsQuery(title).value + ".txt"
  {
    QueriesShareKey(title);
  }

  /** A title with no ASCII letter or digit, such as "!!!", is stored as the bare ".txt". */
  lemma PunctuationTitleGivesBareExtension(title: string)
    requires forall i :: 0 <= i < |title| ==> !IsSlugChar(LowerChar(title[i])) || title[i] == '-'
    ensures SafeFileName(title) == ".txt"
  {
    NoAlphanumericsGiveEmptyKey(title);
  }

  // ----- the error message -----

  /**
   * What `handleUpload` can catch: a thrown string, an object whose
   * `message`, `error_description` and `msg` are given as strings (an absent
   * field is ""), or null/undefined.
   */
  datatype UploadError =
    | StringError(s: string)
    | ObjectError(message: string, errorDescription: string, msg: string)
    | NullError

  /** The candidates the `||` chain tries, in order. */
  function Candidates(e: UploadError): seq<string> {
    match e
    case StringError(_) => []
    case ObjectError(m, d, g) => [m, d, g]
    case NullError => []
  }

  /**
   * The detail after "Upload failed: ": a thrown string itself; otherwise the
   * first non-empty candidate, or the unknown-error text when there is none.
   */
  function ErrorDetail(e: UploadError): (d: string)
    ensures e.StringError? ==> d == e.s
    ensures !e.StringError? ==>
              || (d == UnknownError && forall i :: 0 <= i < |Candidates(e)| ==> Candidates(e)[i] == "")
              || (exists i :: 0 <= i < |Candidates(e)| && Candidates(e)[i] == d && d != "" &&
                              forall j :: 0 <= j < i ==> Candidates(e)[j] == "")
  {
    match e
    case StringError(s) => s
    case ObjectError(m, dsc, g) =>
      if m != "" then (assert Candidates(e)[0] == m; m)
      else if dsc != "" then (assert Candidates(e)[1] == dsc; dsc)
      else if g != "" then (assert Candidates(e)[2] == g; g)
      else UnknownError
    case NullError => UnknownError
  }

  /** Only a thrown string can give an empty detail: the `||` chain always ends in a non-empty text. */
  lemma ErrorDetailNonEmpty(e: UploadError)
    requires !e.StringError?
    ensures ErrorDetail(e) != ""
  {
  }

  /** A candidate that is set wins over every later one. */
  lemma MessageWins(m: string, d: string, g: string)
    requires m != ""
    ensures ErrorDetail(ObjectError(m, d, g)) == m
  {
  }

  // ----- what the form shows -----

  /** The title and file inputs and the Upload button are enabled only when idle or after an error. */
  predicate InputsEnabled(s: Status) {
    s == Idle || s == Error
  }

  /** The spinner caption shown while an upload is in progress. */
  function ProgressText(s: Status): (t: Option<string>)
    ensures t.Some? <==> !InputsEnabled(s) && s != Completed
    ensures t.Some? ==> t.value != ""
  {
    match s
    case Uploading => Some("Uploading...")
    case Parsing => Some("Parsing manuscript...")
    case Analyzing => Some("Analyzing content...")
    case _ => None
  }

  /** `customBookTitle || mockBookTitle`. */
  function DashboardTitle(custom: Option<string>): (t: string)
    ensures custom.Some? && custom.value != "" ==> t == custom.value
    ensures custom.None? || custom.value == "" ==> t == MockBookTitle
  {
    if custom.Some? && custom.value != "" then custom.value else MockBookTitle
  }

  // ----- the form state -----

  /** Where a suspended `handleUpload` call waits. */
  datatype Stage = AwaitUpload | AwaitParsingDelay | AwaitAnalyzingDelay

  /**
   * A suspended `handleUpload` call: the title it captured and where it
   * waits. The file it sent is stored under `SafeFileName(title)`.
   */
  datatype Run = Run(title: string, stage: Stage)

  /** A run captured a non-empty title: it started only after the blank-title check passed. */
  predicate RunValid(r: Run) {
    r.title != ""
  }

  /** Every run in `rs` is valid. */
  ghost predicate AllValid(rs: seq<Run>) {
    forall i :: 0 <= i < |rs| ==> RunValid(rs[i])
  }

  lemma AppendValid(rs: seq<Run>, r: Run)
    requires AllValid(rs) && RunValid(r)
    ensures AllValid(rs + [r])
  {
  }

  lemma RestageValid(rs: seq<Run>, i: nat, st: Stage)
    requires AllValid(rs) && i < |rs|
    ensures AllValid(rs[i := rs[i].(stage := st)])
  {
  }

  lemma RemoveValid(rs: seq<Run>, i: nat)
    requires AllValid(rs) && i < |rs|
    ensures AllValid(rs[..i] + rs[i + 1..])
  {
  }

  /** `!bookTitle.trim()`: the title is empty or all whitespace. */
  predicate IsBlank(t: string) {
    forall i :: 0 <= i < |t| ==> IsWhitespace(t[i])
  }

  /** The blank test is exactly an empty trim. */
  lemma BlankIffTrimEmpty(t: string)
    ensures IsBlank(t) <==> Trim(t) == ""
  {
    if IsBlank(t) {
      TrimAllWhitespace(t);
    }
  }

  class AnalyzeForm {
    var isUploadModalOpen: bool
    var file: Option<SelectedFile>
    var bookTitle: string
    var status: Status
    var errorMessage: string
    var customBookTitle: Option<string>
    /** The `handleUpload` calls still suspended at an `await`, oldest first. */
    var runs: seq<Run>

    /**
     * `completed` is set and reset to `idle` within one event, so it is never
     * a state the form rests in, and every suspended run is a valid one.
     */
    ghost predicate Valid()
      reads this
    {
      status != Completed && AllValid(runs)
    }

    constructor ()
      ensures Valid()
      ensures !isUploadModalOpen && file == None && bookTitle == "" && status == Idle
      ensures errorMessage == "" && customBookTitle == None && runs == []
    {
      isUploadModalOpen := false;
      file := None;
      bookTitle := "";
      status := Idle;
      errorMessage := "";
      customBookTitle := None;
      runs := [];
    }

    /** `handleFileChange`: no selection changes nothing; a rejected file is dropped with its message. */
    method HandleFileChange(selected: Option<SelectedFile>)
      requires Valid() && isUploadModalOpen && InputsEnabled(status)
      modifies this
      ensures Valid()
      ensures selected.None? ==> file == old(file) && errorMessage == old(errorMessage)
      ensures selected.Some? && FileRejection(selected.value).Some? ==>
                file == None && errorMessage == FileRejection(selected.value).value
      ensures selected.Some? && FileRejection(selected.value).None? ==>
                file == selected && errorMessage == ""
      ensures isUploadModalOpen == old(isUploadModalOpen) && bookTitle == old(bookTitle) && status == old(status)
      ensures customBookTitle == old(customBookTitle) && runs == old(runs)
    {
      if selected.Some? {
        var f := selected.value;
        if f.mimeType != "text/plain" && !EndsWith(f.name, ".txt") {
          errorMessage := NotTextMessage;
          file := None;
          return;
        }
        if f.size > 10 * 1024 * 1024 {
          errorMessage := TooLargeMessage;
          file := None;
          return;
        }
        file := selected;
        errorMessage := "";
      }
    }

    /** `handleTitleChange`. */
    method HandleTitleChange(value: string)
      requires Valid() && isUploadModalOpen && InputsEnabled(status)
      modifies this
      ensures Valid()
      ensures bookTitle == value
      ensures isUploadModalOpen == old(isUploadModalOpen) && file == old(file) && status == old(status)
      ensures errorMessage == old(errorMessage) && customBookTitle == old(customBookTitle) && runs == old(runs)
    {
      bookTitle := value;
    }

    /**
     * `handleUpload` up to its first `await`: the file check, then the title
     * check, then the status moves to uploading and a run starts.
     */
    method HandleUpload()
      requires Valid() && isUploadModalOpen && InputsEnabled(status)
      modifies this
      ensures Valid()
      ensures old(file).None? ==> errorMessage == NoFileMessage && status == old(status) && runs == old(runs)
      ensures old(file).Some? && IsBlank(old(bookTitle)) ==>
                errorMessage == NoTitleMessage && status == old(status) && runs == old(runs)
      ensures old(file).Some? && !IsBlank(old(bookTitle)) ==>
                && status == Uploading && errorMessage == ""
                && runs == old(runs) + [Run(old(bookTitle), AwaitUpload)]
      ensures isUploadModalOpen == old(isUploadModalOpen) && file == old(file) && bookTitle == old(bookTitle)
      ensures customBookTitle == old(customBookTitle)
    {
      if file.None? {
        errorMessage := NoFileMessage;
        return;
      }
      if IsBlank(bookTitle) {
        errorMessage := NoTitleMessage;
        return;
      }
      status := Uploading;
      errorMessage := "";
      AppendValid(runs, Run(bookTitle, AwaitUpload));
      runs := runs + [Run(bookTitle, AwaitUpload)];
    }

    /** `uploadBookFile` resolved for run `i`: the status moves to parsing. */
    method UploadSucceeded(i: nat)
      requires Valid() && i < |runs| && runs[i].stage == AwaitUpload
      modifies this
      ensures Valid()
      ensures status == Parsing && runs == old(runs)[i := old(runs)[i].(stage := AwaitParsingDelay)]
      ensures isUploadModalOpen == old(isUploadModalOpen) && file == old(file) && bookTitle == old(bookTitle)
      ensures errorMessage == old(errorMessage) && customBookTitle == old(customBookTitle)
    {
      status := Parsing;
      RestageValid(runs, i, AwaitParsingDelay);
      runs := runs[i := runs[i].(stage := AwaitParsingDelay)];
    }

    /** The 1.5 s delay of run `i` elapsed: the status moves to analyzing. */
    method ParsingDelayElapsed(i: nat)
      requires Valid() && i < |runs| && runs[i].stage == AwaitParsingDelay
      modifies this
      ensures Valid()
      ensures status == Analyzing && runs == old(runs)[i := old(runs)[i].(stage := AwaitAnalyzingDelay)]
      ensures isUploadModalOpen == old(isUploadModalOpen) && file == old(file) && bookTitle == old(bookTitle)
      ensures errorMessage == old(errorMessage) && customBookTitle == old(customBookTitle)
    {
      status := Analyzing;
      RestageValid(runs, i, AwaitAnalyzingDelay);
      runs := runs[i := runs[i].(stage := AwaitAnalyzingDelay)];
    }

    /**
     * The 2 s delay of run `i` elapsed: completed, the dashboard switches to
     * the captured title, the modal closes and the form is reset.
     */
    method AnalyzingDelayElapsed(i: nat)
      requires Valid() && i < |runs| && runs[i].stage == AwaitAnalyzingDelay
      modifies this
      ensures Valid()
      ensures customBookTitle == Some(old(runs)[i].title) && !isUploadModalOpen
      ensures DashboardTitle(customBookTitle) == old(runs)[i].title
      ensures file == None && bookTitle == "" && status == Idle && errorMessage == ""
      ensures runs == old(runs)[..i] + old(runs)[i + 1..]
    {
      var title := runs[i].title;
      RemoveValid(runs, i);
      runs := runs[..i] + runs[i + 1..];
      status := Completed;
      customBookTitle := Some(title);
      isUploadModalOpen := false;
      ResetForm();
    }

    /** `uploadBookFile` rejected run `i` with `e`. */
    method UploadFailed(i: nat, e: UploadError)
      requires Valid() && i < |runs| && runs[i].stage == AwaitUpload
      modifies this
      ensures Valid()
      ensures status == Error && errorMessage == FailurePrefix + ErrorDetail(e)
      ensures runs == old(runs)[..i] + old(runs)[i + 1..]
      ensures isUploadModalOpen == old(isUploadModalOpen) && file == old(file) && bookTitle == old(bookTitle)
      ensures customBookTitle == old(customBookTitle)
    {
      RemoveValid(runs, i);
      runs := runs[..i] + runs[i + 1..];
      status := Error;
      errorMessage := FailurePrefix + ErrorDetail(e);
    }

    /** `resetForm`. */
    method ResetForm()
      requires AllValid(runs)
      modifies this
      ensures Valid()
      ensures file == None && bookTitle == "" && status == Idle && errorMessage == ""
      ensures isUploadModalOpen == old(isUploadModalOpen) && customBookTitle == old(customBookTitle)
      ensures runs == old(runs)
    {
      file := None;
      bookTitle := "";
      status := Idle;
      errorMessage := "";
    }

    /** `openUploadModal`. */
    method OpenUploadModal()
      requires Valid()
      modifies this
      ensures Valid()
      ensures isUploadModalOpen && file == None && bookTitle == "" && status == Idle && errorMessage == ""
      ensures customBookTitle == old(customBookTitle) && runs == old(runs)
    {
      isUploadModalOpen := true;
      ResetForm();
    }

    /** `closeUploadModal`, behind both the close button and Cancel. A suspended run keeps going. */
    method CloseUploadModal()
      requires Valid()
      modifies this
      ensures Valid()
      ensures !isUploadModalOpen && file == None && bookTitle == "" && status == Idle && errorMessage == ""
      ensures customBookTitle == old(customBookTitle) && runs == old(runs)
    {
      isUploadModalOpen := false;
      ResetForm();
    }
  }

  // ----- whole interactions -----

  /**
   * Open, enter a title, pick an accepted file, upload, and let the upload
   * and both delays finish: the file is stored under the title's key, the
   * dashboard then shows the entered title and the form is back to idle
   * with the modal closed.
   */
  method UploadToCompletion(title: string, f: SelectedFile)
    returns (uploaded: string, shown: string, status: Status, open: bool)
    requires FileRejection(f).None? && Trim(title) != ""
    ensures uploaded == FormatBookTitle(title) + ".txt"
    ensures shown == title && status == Idle && !open
  {
    BlankIffTrimEmpty(title);
    var form := new AnalyzeForm();
    form.OpenUploadModal();
    form.HandleTitleChange(title);
    form.HandleFileChange(Some(f));
    form.HandleUpload();
    uploaded := SafeFileName(form.runs[0].title);
    form.UploadSucceeded(0);
    form.ParsingDelayElapsed(0);
    form.AnalyzingDelayElapsed(0);
    shown, status, open := DashboardTitle(form.customBookTitle), form.status, form.isUploadModalOpen;
  }

  /** A failed upload leaves the modal open in the error state with the chosen message, and the dashboard unchanged. */
  method UploadToFailure(title: string, f: SelectedFile, e: UploadError)
    returns (shown: string, status: Status, message: string, open: bool)
    requires FileRejection(f).None? && Trim(title) != ""
    ensures shown == MockBookTitle && status == Error && message == FailurePrefix + ErrorDetail(e) && open
  {
    BlankIffTrimEmpty(title);
    var form := new AnalyzeForm();
    form.OpenUploadModal();
    form.HandleTitleChange(title);
    form.HandleFileChange(Some(f));
    form.HandleUpload();
    form.UploadFailed(0, e);
    shown, status, message, open :=
      DashboardTitle(form.customBookTitle), form.status, form.errorMessage, form.isUploadModalOpen;
  }

  /** Uploading with a whitespace-only title is refused before anything is sent. */
  method BlankTitleRefused(title: string, f: SelectedFile) returns (status: Status, message: string, started: nat)
    requires FileRejection(f).None? && Trim(title) == ""
    ensures status == Idle && message == NoTitleMessage && started == 0
  {
    BlankIffTrimEmpty(title);
    var form := new AnalyzeForm();
    form.OpenUploadModal();
    form.HandleTitleChange(title);
    form.HandleFileChange(Some(f));
    form.HandleUpload();
    status, message, started := form.status, form.errorMessage, |form.runs|;
  }

  /**
   * Cancel does not stop an upload already sent: when its delays finish,
   * the dashboard still switches to the title entered before cancelling.
   */
  method CancelledUploadStillApplies(title: string, f: SelectedFile) returns (shown: string)
    requires FileRejection(f).None? && Trim(title) != ""
    ensures shown == title
  {
    BlankIffTrimEmpty(title);
    var form := new AnalyzeForm();
    form.OpenUploadModal();
    form.HandleTitleChange(title);
    form.HandleFileChange(Some(f));
    form.HandleUpload();
    form.CloseUploadModal();
    form.UploadSucceeded(0);
    form.ParsingDelayElapsed(0);
    form.AnalyzingDelayElapsed(0);
    shown := DashboardTitle(form.customBookTitle);
  }
}
