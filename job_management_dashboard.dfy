/**
 * The job dashboard: the four stat cards computed from the job list, the
 * status colour, the empty state, and opening a job's post editor.
 */
module JobManagementDashboard {
  import opened Wrappers
  import Seqs
  import opened JobSlice

  /** `jobs.filter(job => job.status === status).length`. */
  function CountStatus(jobs: seq<Job>, status: JobStatus): (n: nat)
    ensures n <= |jobs|
    ensures n == 0 <==> forall k :: 0 <= k < |jobs| ==> jobs[k].status != status
  {
    Seqs.CountKey(jobs, StatusOf, status)
  }

  function StatusOf(j: Job): JobStatus { j.status }

  /** `jobs.reduce((sum, job) => sum + job.applications, 0)`: every job's count is part of the total, which is zero only when all are. */
  function TotalApplications(jobs: seq<Job>): (n: nat)
    ensures forall k :: 0 <= k < |jobs| ==> jobs[k].applications <= n
    ensures n == 0 <==> forall k :: 0 <= k < |jobs| ==> jobs[k].applications == 0
  {
    if jobs == [] then 0 else jobs[0].applications + TotalApplications(jobs[1..])
  }

  /** The "Total Jobs" card. */
  function TotalJobs(jobs: seq<Job>): nat {
    |jobs|
  }

  /** Every job is draft, published or closed, so the three counts add up to the total. */
  lemma {:induction false} StatusCountsPartition(jobs: seq<Job>)
    ensures CountStatus(jobs, Published) + CountStatus(jobs, Draft) + CountStatus(jobs, Closed) == TotalJobs(jobs)
  {
    if jobs != [] {
      StatusCountsPartition(jobs[1..]);
    }
  }

  /** Published plus Draft never exceeds the total; they fall short of it by the closed jobs. */
  lemma PublishedPlusDraftBounded(jobs: seq<Job>)
    ensures CountStatus(jobs, Published) + CountStatus(jobs, Draft) <= TotalJobs(jobs)
    ensures CountStatus(jobs, Published) + CountStatus(jobs, Draft) == TotalJobs(jobs) <==> CountStatus(jobs, Closed) == 0
  {
    StatusCountsPartition(jobs);
  }

  /** The counts and the application sum add up over a concatenation. */
  lemma {:induction false} StatsConcat(a: seq<Job>, b: seq<Job>, status: JobStatus)
    ensures CountStatus(a + b, status) == CountStatus(a, status) + CountStatus(b, status)
    ensures TotalApplications(a + b) == TotalApplications(a) + TotalApplications(b)
  {
    if a != [] {
      assert (a + b)[1..] == a[1..] + b;
      StatsConcat(a[1..], b, status);
    } else {
      assert a + b == b;
    }
  }

  /** After `addJob`: one more job, one more draft, the other counts and the application total unchanged. */
  lemma StatsAfterAdd(jobs: seq<Job>, payload: NewJob, id: string, createdAt: string)
    ensures var r := [Created(payload, id, createdAt)] + jobs;
      && TotalJobs(r) == TotalJobs(jobs) + 1
      && CountStatus(r, Draft) == CountStatus(jobs, Draft) + 1
      && CountStatus(r, Published) == CountStatus(jobs, Published)
      && CountStatus(r, Closed) == CountStatus(jobs, Closed)
      && TotalApplications(r) == TotalApplications(jobs)
  {
    var r := [Created(payload, id, createdAt)] + jobs;
    assert r[1..] == jobs;
  }

  /** The initial list shows 3 jobs, 2 published, 1 draft and 23 applications. */
  lemma MockStats()
    ensures TotalJobs(MockJobs()) == 3
    ensures CountStatus(MockJobs(), Published) == 2 && CountStatus(MockJobs(), Draft) == 1
    ensures TotalApplications(MockJobs()) == 23
  {
    var m := MockJobs();
    assert m[1..] == [MockProductJob(), MockDesignJob()];
    assert m[2..] == [MockDesignJob()];
    assert m[3..] == [];
  }

  const DefaultColor: string := "bg-secondary text-secondary-foreground"

  /** `getStatusColor`: a class for each known status and a default for anything else. */
  function StatusColor(status: string): (color: string)
    ensures color == DefaultColor <==> status != "published" && status != "draft" && status != "closed"
  {
    assert "bg-success text-success-foreground"[4] != DefaultColor[4];
    assert "bg-warning text-warning-foreground"[3] != DefaultColor[3];
    assert "bg-destructive text-destructive-foreground"[3] != DefaultColor[3];
    if status == "published" then "bg-success text-success-foreground"
    else if status == "draft" then "bg-warning text-warning-foreground"
    else if status == "closed" then "bg-destructive text-destructive-foreground"
    else DefaultColor
  }

  /** The three statuses get three different colours, none of them the default. */
  lemma StatusColorsDistinct(a: JobStatus, b: JobStatus)
    ensures StatusColor(StatusName(a)) != StatusColor("")
    ensures a != b ==> StatusColor(StatusName(a)) != StatusColor(StatusName(b))
  {
    assert "published"[0] != "draft"[0] && "draft"[0] != "closed"[0] && "published"[0] != "closed"[0];
    assert "bg-success text-success-foreground"[3] == 's';
    assert "bg-warning text-warning-foreground"[3] == 'w';
    assert "bg-destructive text-destructive-foreground"[3] == 'd';
    assert "bg-secondary text-secondary-foreground"[3] == 's';
    assert "bg-success text-success-foreground"[4] == 'u';
    assert "bg-secondary text-secondary-foreground"[4] == 'e';
  }

  /** The empty-state card. */
  predicate ShowsEmptyState(jobs: seq<Job>) {
    |jobs| == 0
  }

  /** The empty state is shown exactly when every card reads zero. */
  lemma EmptyStateMeansZeroStats(jobs: seq<Job>)
    ensures ShowsEmptyState(jobs) <==> TotalJobs(jobs) == 0
    ensures ShowsEmptyState(jobs) ==>
      CountStatus(jobs, Published) == 0 && CountStatus(jobs, Draft) == 0 && TotalApplications(jobs) == 0
  {
  }

  class Dashboard {
    var selectedJobId: Option<string>
    var isPostModalOpen: bool
    var isCreateModalOpen: bool

    constructor ()
      ensures selectedJobId == None && !isPostModalOpen && !isCreateModalOpen
    {
      selectedJobId := None;
      isPostModalOpen := false;
      isCreateModalOpen := false;
    }

    /** `handleViewJobPost`: only a found id selects the job and opens the editor. */
    method HandleViewJobPost(store: JobStore, jobId: string)
      modifies this`selectedJobId, this`isPostModalOpen, store`selectedJob
      ensures var i := Seqs.FirstIndex(store.jobs, JobId, jobId);
        && (i == -1 ==> store.selectedJob == old(store.selectedJob) && selectedJobId == old(selectedJobId)
                        && isPostModalOpen == old(isPostModalOpen))
        && (i != -1 ==> store.selectedJob == Some(store.jobs[i]) && selectedJobId == Some(jobId) && isPostModalOpen)
      ensures store.jobs == old(store.jobs)
    {
      var i := Seqs.FindFirst(store.jobs, JobId, jobId);
      if i != -1 {
        store.SetSelectedJob(Some(store.jobs[i]));
        selectedJobId := Some(jobId);
        isPostModalOpen := true;
      }
    }

    /** `handleDeleteJob`: dispatches `deleteJob`. */
    method HandleDeleteJob(store: JobStore, jobId: string)
      modifies store`jobs
      ensures store.jobs == Without(old(store.jobs), jobId)
    {
      store.DeleteJob(jobId);
    }
  }
}
