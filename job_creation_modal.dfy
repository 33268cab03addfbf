/**
 * The job creation form: validation, the `addJob` dispatch with exactly the
 * three form fields, and the reset that follows a successful submit.
 */
module JobCreationModal {
  import opened Wrappers
  import opened JobSlice

  /** The interviewer choices offered by the form. */
  function InterviewerChoices(): (names: seq<string>)
    ensures |names| == 5
    ensures forall k :: 0 <= k < |names| ==> names[k] != ""
  {
    ["Sarah Johnson", "Michael Chen", "Jennifer Williams", "David Rodriguez", "Emily Davis"]
  }

  /** The payload `handleSubmit` dispatches: title, description and interviewer, and no post. */
  function Payload(fields: JobFields): NewJob {
    NewJob(fields.title, fields.description, fields.interviewer, None)
  }

  class JobCreationForm {
    var fields: JobFields
    var loading: bool
    var open: bool

    constructor ()
      ensures fields == JobFields("", "", "") && !loading && open
    {
      fields := JobFields("", "", "");
      loading := false;
      open := true;
    }

    /**
     * `handleSubmit`: an incomplete form is refused and nothing is
     * dispatched; otherwise a draft job with no applications goes to the
     * front of the list, the form is cleared and the dialog closes.
     */
    method HandleSubmit(store: JobStore, id: string, createdAt: string) returns (created: bool)
      modifies this, store`jobs
      ensures created <==> old(fields).Complete()
      ensures !created ==> store.jobs == old(store.jobs) && fields == old(fields) && open == old(open) && loading == old(loading)
      ensures created ==>
        && store.jobs == [Created(Payload(old(fields)), id, createdAt)] + old(store.jobs)
        && store.jobs[0].status == Draft && store.jobs[0].applications == 0
        && fields == JobFields("", "", "") && !open && !loading
    {
      if !fields.Complete() {
        return false;
      }
      loading := true;
      store.AddJob(Payload(fields), id, createdAt);
      fields := JobFields("", "", "");
      open := false;
      loading := false;
      created := true;
    }
  }
}
