/**
 * The `analytics` slice of the store: dashboard counters, per-platform
 * metrics and the list of recent resumes, with the reducers that update
 * them in place.
 */
module AnalyticsSlice {
  import opened Wrappers
  import Seqs

  datatype ResumeSource = LinkedInSource | EmailSource | WebsiteSource

  datatype ResumeStatus = Pending | Reviewed | Shortlisted | Rejected

  datatype Resume = Resume(
    id: string,
    candidateName: string,
    email: string,
    jobId: string,
    jobTitle: string,
    source: ResumeSource,
    receivedAt: string,
    status: ResumeStatus,
    score: Option<int>,
    resumeUrl: string)

  datatype SocialMetrics = SocialMetrics(platform: string, impressions: int, clicks: int, applications: int)

  datatype AnalyticsData = AnalyticsData(
    totalJobs: int,
    totalApplications: int,
    activeJobPosts: int,
    shortlistedCandidates: int,
    socialMetrics: seq<SocialMetrics>,
    recentResumes: seq<Resume>)

  /** A `Partial<AnalyticsData>` payload: None is a key the payload does not carry. */
  datatype MetricsPatch = MetricsPatch(
    totalJobs: Option<int>,
    totalApplications: Option<int>,
    activeJobPosts: Option<int>,
    shortlistedCandidates: Option<int>,
    socialMetrics: Option<seq<SocialMetrics>>,
    recentResumes: Option<seq<Resume>>)

  function Or<T>(o: Option<T>, otherwise: T): T {
    if o.Some? then o.value else otherwise
  }

  /** `{ ...data, ...patch }`. */
  function Merge(data: AnalyticsData, patch: MetricsPatch): (m: AnalyticsData)
    ensures patch == EmptyPatch() ==> m == data
  {
    AnalyticsData(
      Or(patch.totalJobs, data.totalJobs),
      Or(patch.totalApplications, data.totalApplications),
      Or(patch.activeJobPosts, data.activeJobPosts),
      Or(patch.shortlistedCandidates, data.shortlistedCandidates),
      Or(patch.socialMetrics, data.socialMetrics),
      Or(patch.recentResumes, data.recentResumes))
  }

  function ResumeId(r: Resume): string { r.id }

  /** `if (score) resume.score = score`: a missing or zero score is ignored. */
  function ScoreAfter(old_: Option<int>, score: Option<int>): Option<int> {
    if score.Some? && score.value != 0 then score else old_
  }

  /** `updateResumeStatus` on the data: the first resume with the id gets the status (and a truthy score); a shortlisting adds one. */
  function StatusUpdated(data: AnalyticsData, id: string, status: ResumeStatus, score: Option<int>): (u: AnalyticsData)
    ensures u.shortlistedCandidates >= data.shortlistedCandidates
    ensures u.shortlistedCandidates > data.shortlistedCandidates <==>
      status == Shortlisted && Seqs.FirstIndex(data.recentResumes, ResumeId, id) != -1
    ensures |u.recentResumes| == |data.recentResumes|
    ensures forall k :: 0 <= k < |data.recentResumes| ==> u.recentResumes[k].id == data.recentResumes[k].id
  {
    var rs := data.recentResumes;
    var i := Seqs.FirstIndex(rs, ResumeId, id);
    if i == -1 then data
    else
      data.(recentResumes := rs[i := rs[i].(status := status, score := ScoreAfter(rs[i].score, score))],
            shortlistedCandidates := data.shortlistedCandidates + if status == Shortlisted then 1 else 0)
  }

  /** The mock data the slice starts with. */
  function MockData(): AnalyticsData {
    AnalyticsData(3, 23, 2, 6,
      [ SocialMetrics("LinkedIn", 12450, 340, 15),
        SocialMetrics("Twitter", 5680, 120, 5),
        SocialMetrics("Facebook", 3200, 85, 3),
        SocialMetrics("Indeed", 8900, 230, 12) ],
      [ Resume("1", "Alex Thompson", "alex.thompson@email.com", "1", "Senior React Developer",
               LinkedInSource, "2024-01-15T14:30:00Z", Shortlisted, Some(85), "/mock-resume-1.pdf"),
        Resume("2", "Maria Garcia", "maria.garcia@email.com", "1", "Senior React Developer",
               EmailSource, "2024-01-15T12:15:00Z", Reviewed, Some(78), "/mock-resume-2.pdf"),
        Resume("3", "David Kim", "david.kim@email.com", "2", "Product Manager",
               WebsiteSource, "2024-01-14T16:45:00Z", Pending, None, "/mock-resume-3.pdf"),
        Resume("4", "Jennifer Liu", "jennifer.liu@email.com", "1", "Senior React Developer",
               LinkedInSource, "2024-01-14T11:20:00Z", Shortlisted, Some(92), "/mock-resume-4.pdf") ])
  }

  /** A patch that carries no keys. */
  function EmptyPatch(): MetricsPatch {
    MetricsPatch(None, None, None, None, None, None)
  }

  /** `updateMetrics` replaces exactly the fields the payload carries. */
  lemma MergeSpec(data: AnalyticsData, patch: MetricsPatch)
    ensures var m := Merge(data, patch);
      && (patch.totalJobs.Some? ==> m.totalJobs == patch.totalJobs.value)
      && (patch.totalJobs.None? ==> m.totalJobs == data.totalJobs)
      && (patch.totalApplications.Some? ==> m.totalApplications == patch.totalApplications.value)
      && (patch.totalApplications.None? ==> m.totalApplications == data.totalApplications)
      && (patch.activeJobPosts.Some? ==> m.activeJobPosts == patch.activeJobPosts.value)
      && (patch.activeJobPosts.None? ==> m.activeJobPosts == data.activeJobPosts)
      && (patch.shortlistedCandidates.Some? ==> m.shortlistedCandidates == patch.shortlistedCandidates.value)
      && (patch.shortlistedCandidates.None? ==> m.shortlistedCandidates == data.shortlistedCandidates)
      && (patch.socialMetrics.Some? ==> m.socialMetrics == patch.socialMetrics.value)
      && (patch.socialMetrics.None? ==> m.socialMetrics == data.socialMetrics)
      && (patch.recentResumes.Some? ==> m.recentResumes == patch.recentResumes.value)
      && (patch.recentResumes.None? ==> m.recentResumes == data.recentResumes)
    ensures Merge(Merge(data, patch), patch) == Merge(data, patch)
  {
  }

  /** An unknown id changes nothing; a known one changes only that resume and the shortlist counter. */
  lemma StatusUpdatedSpec(data: AnalyticsData, id: string, status: ResumeStatus, score: Option<int>)
    ensures (forall k :: 0 <= k < |data.recentResumes| ==> data.recentResumes[k].id != id) ==>
      StatusUpdated(data, id, status, score) == data
    ensures var u := StatusUpdated(data, id, status, score);
      && |u.recentResumes| == |data.recentResumes|
      && u.totalJobs == data.totalJobs && u.totalApplications == data.totalApplications
      && u.activeJobPosts == data.activeJobPosts && u.socialMetrics == data.socialMetrics
    ensures forall i ::
      0 <= i < |data.recentResumes| && data.recentResumes[i].id == id && (forall k :: 0 <= k < i ==> data.recentResumes[k].id != id) ==>
      var u := StatusUpdated(data, id, status, score);
      && u.recentResumes[i].status == status
      && (score.Some? && score.value != 0 ==> u.recentResumes[i].score == score)
      && (score.None? || score.value == 0 ==> u.recentResumes[i].score == data.recentResumes[i].score)
      && (forall k :: 0 <= k < |data.recentResumes| && k != i ==> u.recentResumes[k] == data.recentResumes[k])
      && u.shortlistedCandidates == data.shortlistedCandidates + (if status == Shortlisted then 1 else 0)
  {
  }

  /** Shortlisting the same resume twice counts it twice. */
  lemma ShortlistCountedTwice(data: AnalyticsData, i: nat)
    requires i < |data.recentResumes|
    requires forall k :: 0 <= k < i ==> data.recentResumes[k].id != data.recentResumes[i].id
    ensures var id := data.recentResumes[i].id;
      var twice := StatusUpdated(StatusUpdated(data, id, Shortlisted, None), id, Shortlisted, None);
      twice.shortlistedCandidates == data.shortlistedCandidates + 2
  {
    var id := data.recentResumes[i].id;
    var once := StatusUpdated(data, id, Shortlisted, None);
    assert Seqs.FirstIndex(data.recentResumes, ResumeId, id) == i;
    assert once.recentResumes[i].id == id;
    assert forall k :: 0 <= k < i ==> once.recentResumes[k].id != id;
    assert Seqs.FirstIndex(once.recentResumes, ResumeId, id) == i;
  }

  class AnalyticsStore {
    var data: AnalyticsData
    var loading: bool

    constructor ()
      ensures data == MockData() && !loading
    {
      data := MockData();
      loading := false;
    }

    method SetLoading(value: bool)
      modifies this`loading
      ensures loading == value && data == old(data)
    {
      loading := value;
    }

    method UpdateMetrics(patch: MetricsPatch)
      modifies this`data
      ensures data == Merge(old(data), patch) && loading == old(loading)
    {
      data := Merge(data, patch);
    }

    /** `addResume`: the resume goes to the front and the application count rises by exactly one. */
    method AddResume(resume: Resume)
      modifies this`data
      ensures data.recentResumes == [resume] + old(data.recentResumes)
      ensures data.totalApplications == old(data.totalApplications) + 1
      ensures data == old(data).(recentResumes := data.recentResumes, totalApplications := data.totalApplications)
      ensures loading == old(loading)
    {
      data := data.(recentResumes := [resume] + data.recentResumes);
      data := data.(totalApplications := data.totalApplications + 1);
    }

    method UpdateResumeStatus(id: string, status: ResumeStatus, score: Option<int>)
      modifies this`data
      ensures data == StatusUpdated(old(data), id, status, score) && loading == old(loading)
    {
      var i := Seqs.FindFirst(data.recentResumes, ResumeId, id);
      if i != -1 {
        var resume := data.recentResumes[i];
        resume := resume.(status := status);
        if score.Some? && score.value != 0 {
          resume := resume.(score := score);
        }
        data := data.(recentResumes := data.recentResumes[i := resume]);
        if status == Shortlisted {
          data := data.(shortlistedCandidates := data.shortlistedCandidates + 1);
        }
      }
    }
  }
}
