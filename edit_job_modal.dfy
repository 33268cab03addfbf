/**
 * The job edit form: reloading the fields from the selected job, and a submit
 * that checks, in order, that a job is selected, that the interviewer list
 * has finished loading, and that the fields are filled, before dispatching
 * the (abstract) `updateJobAsync` action with the three editable fields.
 */
module EditJobModal {
  import opened Wrappers
  import opened JobSlice
  import ApiService

  /** The verdict of the submit guards, in the order they run. */
  datatype Verdict = NoJobSelected | InterviewersLoading | MissingFields | Ready

  /** What `updateJobAsync` is given: the id and only title, description and interviewer. */
  datatype UpdateRequest = UpdateRequest(id: string, fields: JobFields)

  datatype SubmitResult = Refused(why: Verdict) | Updated | UpdateFailed(message: string)

  datatype Interviewer = Interviewer(id: string, username: string, email: string)

  datatype InterviewersResponse = InterviewersResponse(success: bool, message: string, data: seq<Interviewer>)

  const LoadFailedText: string := "Failed to load interviewers"

  const DefaultFailureText: string := "Failed to update job. Please try again."

  /** The guards of `handleSubmit`: no job, then interviewers still loading, then missing fields. */
  function SubmitVerdict(job: Option<Job>, interviewersLoading: bool, fields: JobFields): (v: Verdict)
    ensures v == NoJobSelected <==> job.None?
    ensures v == InterviewersLoading <==> job.Some? && interviewersLoading
    ensures v == MissingFields <==> job.Some? && !interviewersLoading && !fields.Complete()
    ensures v == Ready <==> job.Some? && !interviewersLoading && fields.Complete()
  {
    if job.None? then NoJobSelected
    else if interviewersLoading then InterviewersLoading
    else if !fields.Complete() then MissingFields
    else Ready
  }

  class EditJobForm {
    var fields: JobFields
    /** The form's status select; shown but never sent. */
    var status: string
    var loading: bool
    var interviewersLoading: bool
    var interviewers: seq<Interviewer>
    var open: bool

    constructor ()
      ensures fields == JobFields("", "", "") && status == "draft" && !loading && !interviewersLoading && open
      ensures interviewers == []
    {
      interviewers := [];
      fields := JobFields("", "", "");
      status := "draft";
      loading := false;
      interviewersLoading := false;
      open := true;
    }

    /** The effect run when the job changes: a job reloads every field; no job leaves the form alone. */
    method SyncFromJob(job: Option<Job>)
      modifies this`fields, this`status
      ensures job.Some? ==>
        fields == JobFields(job.value.title, job.value.description, job.value.interviewer)
        && status == StatusName(job.value.status)
      ensures job.None? ==> fields == old(fields) && status == old(status)
    {
      if job.Some? {
        fields := JobFields(job.value.title, job.value.description, job.value.interviewer);
        status := StatusName(job.value.status);
      }
    }

    /** `fetchInterviewers`: a successful reply replaces the list; otherwise a notice; loading ends either way. */
    method FetchInterviewers(reply: Result<InterviewersResponse, ApiService.ApiError>) returns (notice: Option<string>)
      modifies this`interviewers, this`interviewersLoading
      ensures !interviewersLoading
      ensures reply.Success? && reply.value.success ==> interviewers == reply.value.data && notice == None
      ensures !(reply.Success? && reply.value.success) ==> interviewers == old(interviewers) && notice == Some(LoadFailedText)
    {
      interviewersLoading := true;
      if reply.Success? && reply.value.success {
        interviewers := reply.value.data;
        notice := None;
      } else {
        notice := Some(LoadFailedText);
      }
      interviewersLoading := false;
    }

    /**
     * `handleSubmit`. `failure` is how the dispatched update settled: None
     * when it resolved, the error's message when it was rejected.
     */
    method HandleSubmit(job: Option<Job>, failure: Option<string>) returns (result: SubmitResult, request: Option<UpdateRequest>)
      modifies this`loading, this`open
      ensures var v := SubmitVerdict(job, interviewersLoading, fields);
        && (v != Ready ==> result == Refused(v) && request == None && open == old(open) && loading == old(loading))
        && (v == Ready ==> request == Some(UpdateRequest(job.value.id, fields)) && !loading)
        && (v == Ready && failure.None? ==> result == Updated && !open)
        && (v == Ready && failure.Some? ==>
              open == old(open)
              && result == UpdateFailed(if failure.value != "" then failure.value else DefaultFailureText))
    {
      var v := SubmitVerdict(job, interviewersLoading, fields);
      if v != Ready {
        return Refused(v), None;
      }
      loading := true;
      request := Some(UpdateRequest(job.value.id, fields));
      if failure.None? {
        result := Updated;
        open := false;
      } else {
        result := UpdateFailed(if failure.value != "" then failure.value else DefaultFailureText);
      }
      loading := false;
    }
  }
}
