/** The homework grader screen: in text mode it grades typed work against an
    assignment, in scan mode it grades a photographed answer sheet, with an
    optional answer-key document. Each handler updates the screen's state. */
module HomeworkChecker {
  import opened Wrappers
  import opened Errors
  import opened Strings
  import opened GeminiService

  datatype Mode = TextMode | ScanMode

  /** A file picked in a file input: `dataUrl` is what the file reader
      produces for it. */
  datatype UploadFile = UploadFile(name: string, mimeType: string, size: nat, dataUrl: string)

  /** 5 MiB: the largest upload accepted. */
  const MaxUploadBytes: nat := 5 * 1024 * 1024

  predicate Accepted(f: UploadFile) {
    f.size <= MaxUploadBytes
  }

  /** The limit is inclusive: exactly 5 MiB passes, one byte more does not. */
  lemma UploadLimitInclusive(f: UploadFile)
    ensures Accepted(f) <==> f.size <= 5242880
    ensures f.size == 5242880 ==> Accepted(f)
    ensures f.size == 5242881 ==> !Accepted(f)
  {
  }

  const ImageTooLarge := "File is too large. Please upload " + "an image under 5MB."
  const KeyTooLarge := "File is too large. Please upload under 5MB."
  const ErrorFeedback := "Error processing submission. " + "Please try again."

  /** The screen's state hooks, read together. */
  datatype Form = Form(
    mode: Mode,
    assignment: string,
    studentWork: string,
    studentImageFile: Option<string>,
    studentImageType: string,
    answerKeyFile: Option<string>,
    answerKeyType: string,
    answerKeyName: string,
    feedback: Option<string>,
    loading: bool)

  const InitialForm := Form(TextMode, "", "", None, "", None, "", "", None, false)

  /** `isButtonDisabled`. */
  predicate ButtonDisabled(f: Form) {
    if f.mode == TextMode then f.loading || f.assignment == "" || f.studentWork == ""
    else f.loading || !Truthy(f.studentImageFile)
  }

  /** Which service `handleCheck` calls for a form, if any. */
  datatype Dispatch =
    | NoCall
    | TextCheck(assignment: string, studentWork: string)
    | ScanGrade(image: Attachment, context: string, answerKey: Option<Attachment>)

  /** The branch `handleCheck` takes: text mode needs both texts; scan mode
      needs an image, not an assignment, and passes the answer key exactly
      when one is loaded. */
  function Plan(f: Form): (d: Dispatch)
    ensures d.NoCall? <==>
      (f.mode.TextMode? && (f.assignment == "" || f.studentWork == "")) || (f.mode.ScanMode? && !Truthy(f.studentImageFile))
    ensures d.TextCheck? ==> f.mode.TextMode? && d == TextCheck(f.assignment, f.studentWork)
    ensures d.ScanGrade? ==>
      f.mode.ScanMode? && d.image == Attachment(f.studentImageFile.value, f.studentImageType) && d.context == f.assignment
    ensures d.ScanGrade? ==> (d.answerKey.Some? <==> Truthy(f.answerKeyFile))
    ensures d.ScanGrade? && d.answerKey.Some? ==> d.answerKey.value == Attachment(f.answerKeyFile.value, f.answerKeyType)
  {
    if f.mode.TextMode? then
      if f.assignment == "" || f.studentWork == "" then NoCall
      else TextCheck(f.assignment, f.studentWork)
    else if !Truthy(f.studentImageFile) then NoCall
    else
      var key := if Truthy(f.answerKeyFile) then Some(Attachment(f.answerKeyFile.value, f.answerKeyType)) else None;
      ScanGrade(Attachment(f.studentImageFile.value, f.studentImageType), f.assignment, key)
  }

  /** When nothing is loading, the button is enabled exactly when pressing it
      reaches the service. */
  lemma EnabledIffCall(f: Form)
    requires !f.loading
    ensures !ButtonDisabled(f) <==> !Plan(f).NoCall?
  {
  }

  /** A loading form always has its button disabled. */
  lemma LoadingDisables(f: Form)
    requires f.loading
    ensures ButtonDisabled(f)
  {
  }

  /** What the feedback panel shows for the service's outcome. */
  function Shown(r: Result<string, Thrown>): (s: string)
    ensures r.Success? ==> s == r.value
    ensures r.Failure? ==> s == ErrorFeedback
  {
    if r.Success? then r.value else ErrorFeedback
  }

  /** The feedback `handleCheck` leaves: none when no call is made, else the
      service's text (its own fallback when the reply has no text), or the
      fixed error text when the service throws. */
  function FeedbackAfter(d: Dispatch, reply: Reply): (r: Option<string>)
    ensures r.None? <==> d.NoCall?
    ensures d.TextCheck? ==> r == Some(Shown(TextOr(reply, FeedbackFallback)))
    ensures d.ScanGrade? ==> r == Some(Shown(TextOr(reply, GradingFallback)))
  {
    match d
    case NoCall => None
    case TextCheck(_, _) => Some(Shown(TextOr(reply, FeedbackFallback)))
    case ScanGrade(_, _, _) => Some(Shown(TextOr(reply, GradingFallback)))
  }

  /** Whenever a call is made the feedback panel shows something, so the
      "Complete" badge appears. */
  lemma FeedbackAfterCall(d: Dispatch, reply: Reply)
    requires !d.NoCall?
    ensures FeedbackAfter(d, reply).Some? && FeedbackAfter(d, reply).value != ""
  {
    assert ErrorFeedback != "" by {
      assert |ErrorFeedback| > 0;
    }
  }

  class Grader {
    var mode: Mode
    var assignment: string
    var studentWork: string
    var studentImageFile: Option<string>
    var studentImageType: string
    var answerKeyFile: Option<string>
    var answerKeyType: string
    var answerKeyName: string
    var feedback: Option<string>
    var loading: bool

    /** All the fields at once. */
    function State(): Form
      reads this
    {
      Form(mode, assignment, studentWork, studentImageFile, studentImageType,
        answerKeyFile, answerKeyType, answerKeyName, feedback, loading)
    }

    constructor()
      ensures State() == InitialForm
    {
      mode := TextMode;
      assignment := "";
      studentWork := "";
      studentImageFile := None;
      studentImageType := "";
      answerKeyFile := None;
      answerKeyType := "";
      answerKeyName := "";
      feedback := None;
      loading := false;
    }

    /** The two mode buttons: switch mode and clear the feedback. */
    method SetMode(m: Mode)
      modifies this
      ensures State() == old(State()).(mode := m, feedback := None)
    {
      mode := m;
      feedback := None;
    }

    method SetAssignment(text: string)
      modifies this
      ensures State() == old(State()).(assignment := text)
    {
      assignment := text;
    }

    method SetStudentWork(text: string)
      modifies this
      ensures State() == old(State()).(studentWork := text)
    {
      studentWork := text;
    }

    /** `handleStudentImageUpload`: no file changes nothing; a file over the
        limit is refused with an alert and changes nothing; otherwise the
        image and its type are loaded and the feedback cleared. */
    method UploadStudentImage(file: Option<UploadFile>) returns (alert: Option<string>)
      modifies this
      ensures file.None? ==> alert == None && State() == old(State())
      ensures file.Some? && !Accepted(file.value) ==> alert == Some(ImageTooLarge) && State() == old(State())
      ensures file.Some? && Accepted(file.value) ==>
        (alert == None &&
         State() == old(State()).(studentImageFile := Some(file.value.dataUrl), studentImageType := file.value.mimeType, feedback := None))
    {
      alert := None;
      if file.Some? {
        if file.value.size > 5 * 1024 * 1024 {
          alert := Some(ImageTooLarge);
          return;
        }
        studentImageFile := Some(file.value.dataUrl);
        studentImageType := file.value.mimeType;
        feedback := None;
      }
    }

    /** `handleAnswerKeyUpload`: as for the image, and the key's file name
        is kept too. */
    method UploadAnswerKey(file: Option<UploadFile>) returns (alert: Option<string>)
      modifies this
      ensures file.None? ==> alert == None && State() == old(State())
      ensures file.Some? && !Accepted(file.value) ==> alert == Some(KeyTooLarge) && State() == old(State())
      ensures file.Some? && Accepted(file.value) ==>
        (alert == None &&
         State() == old(State()).(answerKeyFile := Some(file.value.dataUrl), answerKeyType := file.value.mimeType,
                                  answerKeyName := file.value.name, feedback := None))
    {
      alert := None;
      if file.Some? {
        if file.value.size > 5 * 1024 * 1024 {
          alert := Some(KeyTooLarge);
          return;
        }
        answerKeyFile := Some(file.value.dataUrl);
        answerKeyType := file.value.mimeType;
        answerKeyName := file.value.name;
        feedback := None;
      }
    }

    /** `clearStudentImage`. */
    method ClearStudentImage()
      modifies this
      ensures State() == old(State()).(studentImageFile := None, studentImageType := "", feedback := None)
    {
      studentImageFile := None;
      studentImageType := "";
      feedback := None;
    }

    /** `clearAnswerKey`. */
    method ClearAnswerKey()
      modifies this
      ensures State() == old(State()).(answerKeyFile := None, answerKeyType := "", answerKeyName := "", feedback := None)
    {
      answerKeyFile := None;
      answerKeyType := "";
      answerKeyName := "";
      feedback := None;
    }

    /** `handleCheck`, with the backend's reply as an input: it sends the
        request its plan calls for, if any, and ends not loading with the
        feedback that plan and reply give. */
    method HandleCheck(reply: Reply) returns (sent: Option<Request>)
      modifies this
      ensures State() == old(State()).(feedback := FeedbackAfter(Plan(old(State())), reply), loading := false)
      ensures sent.None? <==> Plan(old(State())).NoCall?
      ensures Plan(old(State())).TextCheck? ==>
        sent == Some(CheckHomework(old(assignment), old(studentWork), reply).request)
      ensures Plan(old(State())).ScanGrade? ==>
        (sent.Some? && sent.value.contents.Parts? &&
         Attachments(sent.value.contents.parts) ==
           (if Truthy(old(answerKeyFile)) then [InlineOf(Attachment(old(answerKeyFile).value, old(answerKeyType)))] else []) +
           [InlineOf(Attachment(old(studentImageFile).value, old(studentImageType)))])
      ensures Plan(old(State())).ScanGrade? ==>
        sent == Some(Request(TextModel,
          Parts(KeyParts(Plan(old(State())).answerKey) +
                [InlineOf(Attachment(old(studentImageFile).value, old(studentImageType))),
                 TextPart(SubmissionLabel), TextPart(GradingPrompt(old(assignment)))]),
          NoConfig))
    {
      var before := State();
      var d := Plan(before);
      loading := true;
      feedback := None;
      match d {
        case NoCall =>
          sent := None;
        case TextCheck(a, w) =>
          var c := CheckHomework(a, w, reply);
          sent := Some(c.request);
          feedback := Some(Shown(c.result));
        case ScanGrade(image, context, key) =>
          var c := GradeAnswerSheet(image, context, key, reply);
          sent := Some(c.request);
          feedback := Some(Shown(c.result));
      }
      assert feedback == FeedbackAfter(d, reply);
      loading := false;
    }
  }
}
