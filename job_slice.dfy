/**
 * The `jobs` slice of the store: an ordered list of job records, a loading
 * flag and the selected job, with the reducers that change them in place.
 * Clock readings (`Date.now()`, `new Date().toISOString()`) are parameters.
 */
module JobSlice {
  import opened Wrappers
  import Seqs

  datatype JobStatus = Draft | Published | Closed

  datatype JobPost = JobPost(id: string, content: string, platforms: seq<string>, publishedAt: Option<string>)

  datatype Job = Job(
    id: string,
    title: string,
    description: string,
    interviewer: string,
    createdAt: string,
    status: JobStatus,
    applications: nat,
    jobPost: Option<JobPost>)

  /** The `addJob` payload: a job without id, createdAt, applications and status. */
  datatype NewJob = NewJob(title: string, description: string, interviewer: string, jobPost: Option<JobPost>)

  /** The three fields a user edits in the creation and edit forms. */
  datatype JobFields = JobFields(title: string, description: string, interviewer: string) {
    /** The forms' guard `!title || !description || !interviewer` fails. */
    predicate Complete() {
      title != "" && description != "" && interviewer != ""
    }
  }

  /** The status as the string the components compare against. */
  function StatusName(s: JobStatus): string {
    match s
    case Draft => "draft"
    case Published => "published"
    case Closed => "closed"
  }

  function JobId(j: Job): string { j.id }

  /** The job `addJob` builds from its payload. */
  function Created(payload: NewJob, id: string, createdAt: string): Job {
    Job(id, payload.title, payload.description, payload.interviewer, createdAt, Draft, 0, payload.jobPost)
  }

  /** `updateJob` on a list: the first job with the payload's id is replaced. */
  function Replaced(jobs: seq<Job>, job: Job): (r: seq<Job>)
    ensures |r| == |jobs|
    ensures forall j :: j in r ==> j in jobs || j == job
  {
    var i := Seqs.FirstIndex(jobs, JobId, job.id);
    if i == -1 then jobs else jobs[i := job]
  }

  /** `deleteJob` on a list. */
  function Without(jobs: seq<Job>, id: string): (r: seq<Job>)
    ensures |r| <= |jobs|
    ensures forall j :: j in r ==> j in jobs && j.id != id
  {
    Seqs.FilterOut(jobs, JobId, id)
  }

  /** The fresh, unpublished post `generateJobPost` attaches. */
  function FreshPost(content: string, stamp: string): JobPost {
    JobPost("post-" + stamp, content, [], None)
  }

  /** `generateJobPost` on a list: the first job with the id gets the post; its status is kept. */
  function WithPost(jobs: seq<Job>, id: string, post: JobPost): (r: seq<Job>)
    ensures |r| == |jobs|
    ensures forall k :: 0 <= k < |jobs| ==> r[k].id == jobs[k].id && r[k].status == jobs[k].status
  {
    var i := Seqs.FirstIndex(jobs, JobId, id);
    if i == -1 then jobs else jobs[i := jobs[i].(jobPost := Some(post))]
  }

  /** `publishJobPost` on a list: acts only on a found job that already has a post. */
  function Publish(jobs: seq<Job>, id: string, platforms: seq<string>, at: string): (r: seq<Job>)
    ensures |r| == |jobs|
    ensures forall k :: 0 <= k < |jobs| ==> r[k].id == jobs[k].id
  {
    var i := Seqs.FirstIndex(jobs, JobId, id);
    if i == -1 || jobs[i].jobPost.None? then jobs
    else
      var post := jobs[i].jobPost.value.(platforms := platforms, publishedAt := Some(at));
      jobs[i := jobs[i].(jobPost := Some(post), status := Published)]
  }

  const ReactPostText: string :=
    "Join our innovative team as a Senior React Developer! We offer competitive salary, remote work options, and great benefits."
  const ProductPostText: string :=
    "Lead product innovation as our Product Manager. Drive strategy, collaborate with teams, and shape the future of our products."

  /** The mock list the slice starts with. */
  function MockJobs(): seq<Job> {
    [MockReactJob(), MockProductJob(), MockDesignJob()]
  }

  function MockReactJob(): Job {
    Job("1", "Senior React Developer",
        "We are looking for an experienced React developer to join our team.",
        "Michael Chen", "2024-01-15T10:00:00Z", Published, 15,
        Some(JobPost("post-1",
          ReactPostText,
          ["LinkedIn", "Twitter"], Some("2024-01-15T11:00:00Z"))))
  }

  function MockProductJob(): Job {
    Job("2", "Product Manager",
        "Seeking a Product Manager to drive product strategy and roadmap.",
        "Sarah Johnson", "2024-01-10T14:30:00Z", Published, 8,
        Some(JobPost("post-2",
          ProductPostText,
          ["LinkedIn"], Some("2024-01-10T15:00:00Z"))))
  }

  function MockDesignJob(): Job {
    Job("3", "UX Designer",
        "Creative UX Designer needed to enhance user experience across our platforms.",
        "Michael Chen", "2024-01-05T09:15:00Z", Draft, 0, None)
  }

  /** A published job carries a post with a publication time. */
  predicate PublishedWithDate(j: Job) {
    j.status == Published ==> j.jobPost.Some? && j.jobPost.value.publishedAt.Some?
  }

  predicate DistinctIds(jobs: seq<Job>) {
    forall i, k :: 0 <= i < k < |jobs| ==> jobs[i].id != jobs[k].id
  }

  /** `addJob` puts a draft job with no applications at the front and keeps the old jobs behind it in order. */
  lemma AddJobAtFront(jobs: seq<Job>, payload: NewJob, id: string, createdAt: string)
    ensures var r := [Created(payload, id, createdAt)] + jobs;
      && |r| == |jobs| + 1
      && r[0].id == id && r[0].status == Draft && r[0].applications == 0
      && r[0].title == payload.title && r[0].description == payload.description
      && r[0].interviewer == payload.interviewer && r[0].jobPost == payload.jobPost
      && r[1..] == jobs
  {
  }

  /** `updateJob` keeps the length, replaces only the first job with the id, and is a no-op without one. */
  lemma ReplacedSpec(jobs: seq<Job>, job: Job)
    ensures |Replaced(jobs, job)| == |jobs|
    ensures (forall k :: 0 <= k < |jobs| ==> jobs[k].id != job.id) ==> Replaced(jobs, job) == jobs
    ensures forall i :: 0 <= i < |jobs| && jobs[i].id == job.id && (forall k :: 0 <= k < i ==> jobs[k].id != job.id) ==>
      Replaced(jobs, job) == jobs[i := job]
  {
  }

  /** `deleteJob` removes every job with the id, keeps the others, and keeps their order. */
  lemma WithoutSpec(jobs: seq<Job>, more: seq<Job>, id: string)
    ensures forall j :: j in Without(jobs, id) ==> j in jobs && j.id != id
    ensures forall j :: j in jobs && j.id != id ==> j in Without(jobs, id)
    ensures |Without(jobs, id)| == |jobs| - Seqs.CountKey(jobs, JobId, id)
    ensures Without(jobs + more, id) == Without(jobs, id) + Without(more, id)
    ensures (forall k :: 0 <= k < |jobs| ==> jobs[k].id != id) ==> Without(jobs, id) == jobs
  {
    Seqs.FilterOutLength(jobs, JobId, id);
    Seqs.FilterOutConcat(jobs, more, JobId, id);
    if forall k :: 0 <= k < |jobs| ==> JobId(jobs[k]) != id {
      Seqs.FilterOutNoMatch(jobs, JobId, id);
    }
  }

  /** A late update, post generation or publication for a deleted id leaves the id absent. */
  lemma DeleteWins(jobs: seq<Job>, id: string, job: Job, post: JobPost, platforms: seq<string>, at: string)
    requires job.id == id
    ensures var gone := Without(jobs, id);
      && Replaced(gone, job) == gone
      && WithPost(gone, id, post) == gone
      && Publish(gone, id, platforms, at) == gone
      && forall j :: j in gone ==> j.id != id
  {
  }

  /** `generateJobPost` attaches the post to the first job with the id and never changes any status. */
  lemma WithPostSpec(jobs: seq<Job>, id: string, post: JobPost)
    ensures |WithPost(jobs, id, post)| == |jobs|
    ensures forall k :: 0 <= k < |jobs| ==> WithPost(jobs, id, post)[k].status == jobs[k].status
    ensures forall i :: 0 <= i < |jobs| && jobs[i].id == id && (forall k :: 0 <= k < i ==> jobs[k].id != id) ==>
      WithPost(jobs, id, post) == jobs[i := jobs[i].(jobPost := Some(post))]
    ensures (forall k :: 0 <= k < |jobs| ==> jobs[k].id != id) ==> WithPost(jobs, id, post) == jobs
  {
  }

  /** Neither `generateJobPost` nor `publishJobPost` moves a job: every id is found where it was found before. */
  lemma KeepsIndices(jobs: seq<Job>, id: string, post: JobPost, platforms: seq<string>, at: string, other: string)
    ensures Seqs.FirstIndex(WithPost(jobs, id, post), JobId, other) == Seqs.FirstIndex(jobs, JobId, other)
    ensures Seqs.FirstIndex(Publish(jobs, id, platforms, at), JobId, other) == Seqs.FirstIndex(jobs, JobId, other)
  {
    Seqs.FirstIndexSameKeys(WithPost(jobs, id, post), jobs, JobId, other);
    Seqs.FirstIndexSameKeys(Publish(jobs, id, platforms, at), jobs, JobId, other);
  }

  /** Regenerating the post of a published job leaves it published but without a publication time. */
  lemma RegenerateLosesDate(jobs: seq<Job>, i: nat, content: string, stamp: string)
    requires i < |jobs| && jobs[i].status == Published
    requires forall k :: 0 <= k < i ==> jobs[k].id != jobs[i].id
    ensures var r := WithPost(jobs, jobs[i].id, FreshPost(content, stamp));
      && r[i].status == Published && r[i].jobPost == Some(FreshPost(content, stamp))
      && !PublishedWithDate(r[i])
  {
  }

  /** `publishJobPost` on a found job with a post sets the platforms as given (empty or not), the time and the status. */
  lemma PublishSpec(jobs: seq<Job>, id: string, platforms: seq<string>, at: string)
    ensures |Publish(jobs, id, platforms, at)| == |jobs|
    ensures forall i :: 0 <= i < |jobs| && jobs[i].id == id && (forall k :: 0 <= k < i ==> jobs[k].id != id) ==>
      var r := Publish(jobs, id, platforms, at);
      && (forall k :: 0 <= k < |jobs| && k != i ==> r[k] == jobs[k])
      && (jobs[i].jobPost.None? ==> r == jobs)
      && (jobs[i].jobPost.Some? ==>
            && r[i].status == Published
            && r[i].jobPost == Some(jobs[i].jobPost.value.(platforms := platforms, publishedAt := Some(at)))
            && PublishedWithDate(r[i]))
    ensures (forall k :: 0 <= k < |jobs| ==> jobs[k].id != id) ==> Publish(jobs, id, platforms, at) == jobs
  {
  }

  /** If every job is either unpublished or carries a dated post, `publishJobPost` keeps it so. */
  lemma PublishKeepsDates(jobs: seq<Job>, id: string, platforms: seq<string>, at: string)
    requires forall j :: j in jobs ==> PublishedWithDate(j)
    ensures forall j :: j in Publish(jobs, id, platforms, at) ==> PublishedWithDate(j)
  {
    var r := Publish(jobs, id, platforms, at);
    forall j | j in r
      ensures PublishedWithDate(j)
    {
      var k :| 0 <= k < |r| && r[k] == j;
      assert r[k] == jobs[k] || PublishedWithDate(r[k]);
    }
  }

  /** The initial list has distinct ids and every published job in it has a dated post. */
  lemma MockJobsWellFormed()
    ensures DistinctIds(MockJobs())
    ensures forall k :: 0 <= k < |MockJobs()| ==> PublishedWithDate(MockJobs()[k])
  {
    var ids := [MockReactJob().id, MockProductJob().id, MockDesignJob().id];
    assert ids[0][0] == '1' && ids[1][0] == '2' && ids[2][0] == '3';
    assert forall i, k :: 0 <= i < k < 3 ==> ids[i] != ids[k];
    assert PublishedWithDate(MockReactJob());
    assert PublishedWithDate(MockProductJob());
    assert PublishedWithDate(MockDesignJob());
  }

  class JobStore {
    var jobs: seq<Job>
    var loading: bool
    var selectedJob: Option<Job>

    constructor ()
      ensures jobs == MockJobs() && !loading && selectedJob == None
    {
      jobs := MockJobs();
      loading := false;
      selectedJob := None;
    }

    method SetLoading(value: bool)
      modifies this`loading
      ensures loading == value
      ensures jobs == old(jobs) && selectedJob == old(selectedJob)
    {
      loading := value;
    }

    method AddJob(payload: NewJob, id: string, createdAt: string)
      modifies this`jobs
      ensures jobs == [Created(payload, id, createdAt)] + old(jobs)
      ensures loading == old(loading) && selectedJob == old(selectedJob)
    {
      jobs := [Created(payload, id, createdAt)] + jobs;
    }

    method UpdateJob(job: Job)
      modifies this`jobs
      ensures jobs == Replaced(old(jobs), job)
      ensures loading == old(loading) && selectedJob == old(selectedJob)
    {
      var index := Seqs.FindFirst(jobs, JobId, job.id);
      if index != -1 {
        jobs := jobs[index := job];
      }
    }

    method DeleteJob(id: string)
      modifies this`jobs
      ensures jobs == Without(old(jobs), id)
      ensures loading == old(loading) && selectedJob == old(selectedJob)
    {
      jobs := Seqs.FilterOut(jobs, JobId, id);
    }

    method SetSelectedJob(job: Option<Job>)
      modifies this`selectedJob
      ensures selectedJob == job
      ensures jobs == old(jobs) && loading == old(loading)
    {
      selectedJob := job;
    }

    method GenerateJobPost(jobId: string, content: string, stamp: string)
      modifies this`jobs
      ensures jobs == WithPost(old(jobs), jobId, FreshPost(content, stamp))
      ensures loading == old(loading) && selectedJob == old(selectedJob)
    {
      var index := Seqs.FindFirst(jobs, JobId, jobId);
      if index != -1 {
        jobs := jobs[index := jobs[index].(jobPost := Some(FreshPost(content, stamp)))];
      }
    }

    method PublishJobPost(jobId: string, platforms: seq<string>, at: string)
      modifies this`jobs
      ensures jobs == Publish(old(jobs), jobId, platforms, at)
      ensures loading == old(loading) && selectedJob == old(selectedJob)
    {
      var index := Seqs.FindFirst(jobs, JobId, jobId);
      if index != -1 && jobs[index].jobPost.Some? {
        var post := jobs[index].jobPost.value.(platforms := platforms, publishedAt := Some(at));
        jobs := jobs[index := jobs[index].(jobPost := Some(post), status := Published)];
      }
    }
  }
}
