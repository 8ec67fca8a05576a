/**
 * The AI interview wizard: upload a resume (step 1), answer the generated questions one
 * by one (step 2), read the summary (step 3). The answers of the interview service are
 * parameters of the handlers.
 */
module AiInterview {
  import opened Wrappers
  import opened Text

  /** The chosen file: its name and MIME type. */
  datatype FileInfo = FileInfo(name: string, mimeType: string)

  /** What the service's analysis of an answer holds. */
  datatype Analysis = Analysis(score: Json, strengths: seq<string>, suggestions: Json)

  /** The feedback shown under an answer. */
  datatype Feedback = Feedback(score: Json, comments: string, suggestions: Json)

  const PdfType: string := "application/pdf"
  const NotPdfError: string := "Please upload a PDF file"
  const NoResumeError: string := "Please upload your resume first"
  const StartFailedError: string := "Failed to start interview. Please try again."
  const BlankAnswerError: string := "Please provide an answer"
  const AnswerFailedError: string := "Failed to process answer. Please try again."

  /** `q.question` for a generated question. */
  function QuestionText(q: Json): Option<Json>
  {
    Field(q, "question")
  }

  /** The feedback built from an analysis: the strengths joined with ", ". */
  function FeedbackOf(a: Analysis): (f: Feedback)
    ensures f.score == a.score && f.suggestions == a.suggestions
    ensures |a.strengths| == 1 ==> f.comments == a.strengths[0]
    ensures a.strengths == [] ==> f.comments == ""
    ensures |a.strengths| >= 2 ==>
              f.comments == Join(a.strengths[..|a.strengths| - 1], ", ") + ", " + a.strengths[|a.strengths| - 1]
  {
    var n := |a.strengths|;
    assert n >= 2 ==> Join(a.strengths, ", ") == Join(a.strengths[..n - 1], ", ") + ", " + a.strengths[n - 1] by {
      if n >= 2 { JoinSnoc(a.strengths, ", "); }
    }
    Feedback(a.score, Join(a.strengths, ", "), a.suggestions)
  }

  /**
   * Whether `startInterview` reaches step 2: the start call resolves with a truthy `success`,
   * the question call resolves, and its first entry can be read. `None` stands for a rejection.
   */
  predicate StartSucceeds(response: Option<Json>, generated: Option<seq<Json>>)
  {
    StartAccepted(response) && generated.Some? && |generated.value| > 0 && generated.value[0] != JNull
  }

  /** The start call resolved with a truthy `response.success`. */
  predicate StartAccepted(response: Option<Json>)
  {
    response.Some? && Field(response.value, "success").Some? && Truthy(Field(response.value, "success").value)
  }

  /**
   * The question index after the delayed advance, as written: `prev => prev + 1` when the index
   * captured at submit time was not the last one.
   */
  function AdvancedIndex(current: int, capturedIndex: int, capturedCount: int): (r: int)
    ensures r == current || r == current + 1
    ensures r == current + 1 <==> capturedIndex < capturedCount - 1
  {
    if capturedIndex < capturedCount - 1 then current + 1 else current
  }

  /**
   * Two answers submitted on the second-to-last question before the first delayed advance
   * fires: both advances captured the same index, and the index ends one past the last question.
   */
  lemma DoubleSubmitOverruns(count: int)
    requires count >= 2
    ensures AdvancedIndex(AdvancedIndex(count - 2, count - 2, count), count - 2, count) == count
  {
  }

  /** The evidently intended advance: move to the question after the one that was answered. */
  function IntendedIndex(current: int, capturedIndex: int, capturedCount: int): (r: int)
    ensures capturedIndex < capturedCount - 1 ==> r == capturedIndex + 1
    ensures capturedIndex >= capturedCount - 1 ==> r == current
  {
    if capturedIndex < capturedCount - 1 then capturedIndex + 1 else current
  }

  /** The index after a run of intended advances, each with the index captured at its submit. */
  function IntendedIndexAfter(current: int, captured: seq<int>, count: int): int
    decreases captured
  {
    if captured == [] then current
    else IntendedIndexAfter(IntendedIndex(current, captured[0], count), captured[1..], count)
  }

  /**
   * With the intended advance, however many advances are pending and whatever (valid) index
   * each captured, the index stays on a question.
   */
  lemma {:induction false} IntendedIndexStaysInRange(current: int, captured: seq<int>, count: int)
    requires 0 <= current < count
    requires forall i :: 0 <= i < |captured| ==> 0 <= captured[i] < count
    ensures 0 <= IntendedIndexAfter(current, captured, count) < count
    decreases captured
  {
    if captured != [] {
      IntendedIndexStaysInRange(IntendedIndex(current, captured[0], count), captured[1..], count);
    }
  }

  /** The wizard's state. */
  class InterviewWizard {
    var step: int
    var resume: Option<FileInfo>
    var isLoading: bool
    var error: Option<string>
    var currentQuestion: Option<Json>
    var userAnswer: string
    var interviewStarted: bool
    var feedback: Option<Feedback>
    var questions: seq<Json>
    var currentQuestionIndex: int
    var interviewSummary: Option<Json>

    /** The step is one of the three screens, and the question index points at a question while answering. */
    ghost predicate Valid()
      reads this`step, this`questions, this`currentQuestionIndex
    {
      1 <= step <= 3 && 0 <= currentQuestionIndex &&
      (step == 1 ==> currentQuestionIndex == 0) &&
      (step == 2 ==> currentQuestionIndex < |questions|)
    }

    constructor ()
      ensures Valid()
      ensures step == 1 && resume.None? && !isLoading && error.None? && currentQuestion.None?
      ensures userAnswer == "" && !interviewStarted && feedback.None? && questions == []
      ensures currentQuestionIndex == 0 && interviewSummary.None?
    {
      step, resume, isLoading, error := 1, None, false, None;
      currentQuestion, userAnswer, interviewStarted, feedback := None, "", false, None;
      questions, currentQuestionIndex, interviewSummary := [], 0, None;
    }

    /** `handleFileUpload` with the first chosen file, `None` when nothing was chosen. */
    method HandleFileUpload(file: Option<FileInfo>)
      modifies this`resume, this`error
      ensures file.Some? && file.value.mimeType == PdfType ==> resume == file && error.None?
      ensures !(file.Some? && file.value.mimeType == PdfType) ==> resume == old(resume) && error == Some(NotPdfError)
    {
      if file.Some? && file.value.mimeType == PdfType {
        resume, error := file, None;
      } else {
        error := Some(NotPdfError);
      }
    }

    /**
     * `startInterview`, reachable from the upload screen. `response` is what the start call
     * resolves with and `generated` the generated questions; `None` is a rejection.
     */
    method StartInterview(response: Option<Json>, generated: Option<seq<Json>>)
      requires Valid() && step == 1
      modifies this`isLoading, this`error, this`questions, this`currentQuestion, this`step, this`interviewStarted
      ensures Valid()
      ensures resume.None? ==> error == Some(NoResumeError) && isLoading == old(isLoading) &&
                                step == 1 && questions == old(questions) && interviewStarted == old(interviewStarted)
      ensures resume.Some? ==> !isLoading
      ensures resume.Some? && StartSucceeds(response, generated) ==>
                step == 2 && interviewStarted && questions == generated.value &&
                currentQuestion == QuestionText(generated.value[0]) && currentQuestionIndex == 0 && error == old(error)
      ensures resume.Some? && !StartSucceeds(response, generated) ==>
                step == 1 && error == Some(StartFailedError) && currentQuestion == old(currentQuestion) &&
                interviewStarted == old(interviewStarted)
      ensures resume.Some? && StartAccepted(response) && generated.Some? ==> questions == generated.value
      ensures resume.Some? && !(StartAccepted(response) && generated.Some?) ==> questions == old(questions)
    {
      if resume.None? {
        error := Some(NoResumeError);
        return;
      }
      isLoading := true;
      if !StartAccepted(response) || generated.None? {
        error := Some(StartFailedError);
      } else {
        var qs := generated.value;
        questions := qs;
        if |qs| == 0 || qs[0] == JNull {
          error := Some(StartFailedError);
        } else {
          currentQuestion := QuestionText(qs[0]);
          step := 2;
          interviewStarted := true;
        }
      }
      isLoading := false;
    }

    /**
     * `handleAnswerSubmit`, reachable from the question screen; `analysis` is what the
     * analysis call resolves with (`None`: it rejects). `scheduled` says whether the
     * delayed advance was set up; it will run with the index and questions of this moment.
     */
    method SubmitAnswer(analysis: Option<Analysis>) returns (scheduled: bool)
      modifies this`isLoading, this`error, this`feedback
      ensures IsBlank(userAnswer) ==>
                error == Some(BlankAnswerError) && !scheduled && isLoading == old(isLoading) && feedback == old(feedback)
      ensures !IsBlank(userAnswer) ==> !isLoading
      ensures !IsBlank(userAnswer) && analysis.Some? ==>
                scheduled && feedback == Some(FeedbackOf(analysis.value)) && error == old(error)
      ensures !IsBlank(userAnswer) && analysis.None? ==>
                !scheduled && error == Some(AnswerFailedError) && feedback == old(feedback)
    {
      TrimEmptyIffBlank(userAnswer);
      if Trim(userAnswer) == "" {
        error := Some(BlankAnswerError);
        return false;
      }
      isLoading := true;
      if analysis.None? {
        error := Some(AnswerFailedError);
        scheduled := false;
      } else {
        feedback := Some(FeedbackOf(analysis.value));
        scheduled := true;
      }
      isLoading := false;
    }

    /**
     * The delayed advance scheduled by a submit, run with the index and questions captured
     * at that submit and, at the end of the interview, the summary the service returns.
     */
    method AdvanceAfterFeedback(capturedIndex: int, capturedQuestions: seq<Json>, summary: Json)
      requires 0 <= capturedIndex
      modifies this`currentQuestionIndex, this`currentQuestion, this`userAnswer, this`feedback,
               this`interviewSummary, this`step
      ensures currentQuestionIndex == AdvancedIndex(old(currentQuestionIndex), capturedIndex, |capturedQuestions|)
      ensures capturedIndex < |capturedQuestions| - 1 ==>
                currentQuestion == QuestionText(capturedQuestions[capturedIndex + 1]) &&
                userAnswer == "" && feedback.None? && step == old(step) && interviewSummary == old(interviewSummary)
      ensures capturedIndex >= |capturedQuestions| - 1 ==>
                step == 3 && interviewSummary == Some(summary) && currentQuestion == old(currentQuestion) &&
                userAnswer == old(userAnswer) && feedback == old(feedback)
      ensures old(Valid()) && old(step) == 2 && capturedIndex == old(currentQuestionIndex) && capturedQuestions == questions ==>
                Valid() && (step == 2 ==> currentQuestion == QuestionText(questions[currentQuestionIndex]))
    {
      if capturedIndex < |capturedQuestions| - 1 {
        currentQuestionIndex := currentQuestionIndex + 1;
        currentQuestion := QuestionText(capturedQuestions[capturedIndex + 1]);
        userAnswer, feedback := "", None;
      } else {
        interviewSummary := Some(summary);
        step := 3;
      }
    }

    /** `handleStartNewInterview`: back to the upload screen; the error and loading flag are kept. */
    method HandleStartNewInterview()
      modifies this`step, this`resume, this`questions, this`currentQuestionIndex, this`currentQuestion,
               this`userAnswer, this`feedback, this`interviewSummary, this`interviewStarted
      ensures Valid()
      ensures step == 1 && resume.None? && questions == [] && currentQuestionIndex == 0 && currentQuestion.None?
      ensures userAnswer == "" && feedback.None? && interviewSummary.None? && !interviewStarted
    {
      step, resume, questions, currentQuestionIndex := 1, None, [], 0;
      currentQuestion, userAnswer, feedback := None, "", None;
      interviewSummary, interviewStarted := None, false;
    }
  }
}
