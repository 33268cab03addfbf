/**
 * The job-post editor: picking platforms, generating the post text from the
 * job, publishing it through the jobs slice, and reloading the editor when
 * the job changes. Clock readings are parameters.
 */
module JobPostModal {
  import opened Wrappers
  import Seqs
  import Strings
  import opened JobSlice

  /** Platform ids compare as themselves. */
  function PlatformId(p: string): string { p }

  /** `handlePlatformToggle`: a selected id is removed (every occurrence), an unselected one is appended. */
  function Toggle(selected: seq<string>, id: string): (r: seq<string>)
    ensures id in r <==> id !in selected
  {
    if id in selected then Seqs.FilterOut(selected, PlatformId, id) else selected + [id]
  }

  /** Toggling touches no other id, and an unselected id goes to the end. */
  lemma ToggleFlips(selected: seq<string>, id: string)
    ensures forall p :: p != id ==> (p in Toggle(selected, id) <==> p in selected)
    ensures id !in selected ==> Toggle(selected, id) == selected + [id]
  {
    if id in selected {
      var r := Seqs.FilterOut(selected, PlatformId, id);
      assert forall i :: 0 <= i < |r| ==> r[i] != id;
    }
  }

  /** Toggling an unselected id twice restores the selection. */
  lemma ToggleTwiceRestores(selected: seq<string>, id: string)
    requires id !in selected
    ensures Toggle(Toggle(selected, id), id) == selected
  {
    var once := selected + [id];
    assert id in once;
    Seqs.FilterOutConcat(selected, [id], PlatformId, id);
    Seqs.FilterOutNoMatch(selected, PlatformId, id);
    assert Seqs.FilterOut([id], PlatformId, id) == [];
  }

  /** `jobId ? jobs.find(j => j.id === jobId) : null`. */
  function LookupJob(jobs: seq<Job>, jobId: Option<string>): (j: Option<Job>)
    ensures j.Some? <==> jobId.Some? && jobId.value != "" && Seqs.FirstIndex(jobs, JobId, jobId.value) != -1
    ensures j.Some? ==> j.value == jobs[Seqs.FirstIndex(jobs, JobId, jobId.value)] && j.value.id == jobId.value
  {
    if jobId.None? || jobId.value == "" then None
    else
      var i := Seqs.FirstIndex(jobs, JobId, jobId.value);
      if i == -1 then None else Some(jobs[i])
  }

  const PostIntro: string := "\U{1F680} We're hiring a "
  const PostBody: string :=
    "!\n\nJoin our innovative team and help us build the future of technology. We're looking for a talented professional to:\n\n"
    + "\U{2022} Work on cutting-edge projects\n\U{2022} Collaborate with a dynamic team\n\U{2022} Grow your career in a supportive environment\n\nRequirements:\n"
  const PostOutro: string := "\n\nReady to take the next step in your career? Apply now!\n\n#Hiring "
  const PostTags: string := " #TechJobs #CareerOpportunity"

  /** The text `generatePost` writes for a job. */
  function GeneratedContent(title: string, description: string): (text: string)
    ensures |text| > |title| + |description|
  {
    PostIntro + title + PostBody + description + PostOutro + "#" + Strings.StripSpaces(title) + PostTags
  }

  /** Each of the parts spliced into a seven-part text occurs in it. */
  lemma SplicedParts(a: string, t: string, b: string, d: string, c: string, g: string, e: string)
    ensures var s := a + t + b + d + c + g + e;
      Strings.Contains(s, t) && Strings.Contains(s, d) && Strings.Contains(s, g)
  {
    var s := a + t + b + d + c + g + e;
    assert s == a + t + (b + d + c + g + e);
    Strings.ContainsInfix(a, t, b + d + c + g + e);
    assert s == (a + t + b) + d + (c + g + e);
    Strings.ContainsInfix(a + t + b, d, c + g + e);
    Strings.ContainsInfix(a + t + b + d + c, g, e);
  }

  /** The generated text names the title and the description, and tags the title with its whitespace removed. */
  lemma GeneratedContentMentions(title: string, description: string)
    ensures Strings.Contains(GeneratedContent(title, description), title)
    ensures Strings.Contains(GeneratedContent(title, description), description)
    ensures Strings.Contains(GeneratedContent(title, description), "#" + Strings.StripSpaces(title))
  {
    var tag := "#" + Strings.StripSpaces(title);
    assert GeneratedContent(title, description) == PostIntro + title + PostBody + description + PostOutro + tag + PostTags;
    SplicedParts(PostIntro, title, PostBody, description, PostOutro, tag, PostTags);
  }

  /** `publishPost`'s validation: a job, text, and at least one platform. */
  predicate PublishValid(job: Option<Job>, content: string, platforms: seq<string>) {
    job.Some? && content != "" && |platforms| != 0
  }

  /**
   * `postContent && selectedPlatforms.length > 0`: whether the Publish button
   * is rendered (the dialog renders nothing without a job).
   */
  function PublishButtonShown(job: Job, content: string, platforms: seq<string>): (shown: bool)
    ensures shown <==> PublishValid(Some(job), content, platforms)
  {
    content != "" && |platforms| > 0
  }

  class PostEditor {
    var postContent: string
    var selectedPlatforms: seq<string>
    var isEditing: bool
    var generating: bool
    var publishing: bool
    /** Whether the dialog is open (`onOpenChange(false)` closes it). */
    var open: bool

    constructor ()
      ensures postContent == "" && selectedPlatforms == [] && !isEditing && !generating && !publishing && open
    {
      postContent := "";
      selectedPlatforms := [];
      isEditing := false;
      generating := false;
      publishing := false;
      open := true;
    }

    /** The effect run when the job changes: load the post if there is one, clear the editor otherwise. */
    method SyncFromJob(job: Option<Job>)
      modifies this`postContent, this`selectedPlatforms, this`isEditing
      ensures job.Some? && job.value.jobPost.Some? ==>
        postContent == job.value.jobPost.value.content && selectedPlatforms == job.value.jobPost.value.platforms
      ensures !(job.Some? && job.value.jobPost.Some?) ==> postContent == "" && selectedPlatforms == []
      ensures !isEditing
    {
      if job.Some? && job.value.jobPost.Some? {
        postContent := job.value.jobPost.value.content;
        selectedPlatforms := job.value.jobPost.value.platforms;
      } else {
        postContent := "";
        selectedPlatforms := [];
      }
      isEditing := false;
    }

    method TogglePlatform(id: string)
      modifies this`selectedPlatforms
      ensures selectedPlatforms == Toggle(old(selectedPlatforms), id)
    {
      if id in selectedPlatforms {
        selectedPlatforms := Seqs.FilterOut(selectedPlatforms, PlatformId, id);
      } else {
        selectedPlatforms := selectedPlatforms + [id];
      }
    }

    /**
     * `generatePost`: without a job nothing happens. Otherwise the text is
     * generated, shown for editing and attached to the job; the reducer
     * replaces the job object, so the `[job]` effect runs again and reloads
     * the editor from the new, unpublished post: editing off, no platforms.
     */
    method GeneratePost(store: JobStore, jobId: Option<string>, stamp: string)
      modifies this`postContent, this`selectedPlatforms, this`isEditing, this`generating, store`jobs
      ensures var job := LookupJob(old(store.jobs), jobId);
        && (job.None? ==>
              && postContent == old(postContent) && selectedPlatforms == old(selectedPlatforms)
              && isEditing == old(isEditing) && generating == old(generating) && store.jobs == old(store.jobs))
        && (job.Some? ==>
              && postContent == GeneratedContent(job.value.title, job.value.description)
              && store.jobs == WithPost(old(store.jobs), job.value.id, FreshPost(postContent, stamp))
              && LookupJob(store.jobs, jobId) == Some(job.value.(jobPost := Some(FreshPost(postContent, stamp))))
              && selectedPlatforms == [] && !isEditing && !generating)
    {
      var job := LookupJob(store.jobs, jobId);
      if job.None? {
        return;
      }
      generating := true;
      var content := GeneratedContent(job.value.title, job.value.description);
      postContent := content;
      isEditing := true;
      ghost var before := store.jobs;
      store.GenerateJobPost(job.value.id, content, stamp);
      KeepsIndices(before, job.value.id, FreshPost(content, stamp), [], "", job.value.id);
      SyncFromJob(LookupJob(store.jobs, jobId));
      generating := false;
    }

    /**
     * `publishPost`: refused (nothing dispatched) unless valid; otherwise
     * publishes the selected platforms and closes. When the job has a post the
     * reducer replaces the job object, and the `[job]` effect reloads the
     * editor from the stored post, so text edited in the editor is replaced by
     * the stored text.
     */
    method PublishPost(store: JobStore, jobId: Option<string>, at: string) returns (published: bool)
      modifies this`postContent, this`selectedPlatforms, this`isEditing, this`publishing, this`open, store`jobs
      ensures var job := LookupJob(old(store.jobs), jobId);
        && (published <==> PublishValid(job, old(postContent), old(selectedPlatforms)))
        && (!published ==>
              && store.jobs == old(store.jobs) && open == old(open) && publishing == old(publishing)
              && postContent == old(postContent) && selectedPlatforms == old(selectedPlatforms) && isEditing == old(isEditing))
        && (published ==>
              && store.jobs == Publish(old(store.jobs), job.value.id, old(selectedPlatforms), at)
              && !open && !publishing && selectedPlatforms == old(selectedPlatforms))
        && (published && job.value.jobPost.Some? ==> postContent == job.value.jobPost.value.content && !isEditing)
        && (published && job.value.jobPost.None? ==> postContent == old(postContent) && isEditing == old(isEditing))
    {
      var job := LookupJob(store.jobs, jobId);
      if job.None? || postContent == "" || |selectedPlatforms| == 0 {
        return false;
      }
      publishing := true;
      ghost var before := store.jobs;
      store.PublishJobPost(job.value.id, selectedPlatforms, at);
      if job.value.jobPost.Some? {
        KeepsIndices(before, job.value.id, job.value.jobPost.value, selectedPlatforms, at, job.value.id);
        SyncFromJob(LookupJob(store.jobs, jobId));
      }
      open := false;
      publishing := false;
      published := true;
    }
  }

  /**
   * Generating a job's post, selecting a non-empty set of platforms and
   * publishing leaves that job published on exactly those platforms, with a
   * publication time, and the editor showing the generated text.
   */
  method GenerateThenPublish(store: JobStore, editor: PostEditor, jobId: string, platforms: seq<string>, stamp: string, at: string)
    returns (published: bool)
    requires |platforms| > 0 && jobId != ""
    requires Seqs.FirstIndex(store.jobs, JobId, jobId) != -1
    modifies store`jobs, editor
    ensures published
    ensures var i := Seqs.FirstIndex(old(store.jobs), JobId, jobId);
      && |store.jobs| == |old(store.jobs)|
      && store.jobs[i].status == Published
      && store.jobs[i].jobPost.Some?
      && store.jobs[i].jobPost.value.platforms == platforms
      && store.jobs[i].jobPost.value.publishedAt == Some(at)
      && editor.postContent == GeneratedContent(old(store.jobs)[i].title, old(store.jobs)[i].description)
  {
    ghost var i := Seqs.FirstIndex(store.jobs, JobId, jobId);
    editor.GeneratePost(store, Some(jobId), stamp);
    editor.selectedPlatforms := platforms;
    ghost var afterGen := store.jobs;
    KeepsIndices(old(store.jobs), jobId, FreshPost(editor.postContent, stamp), [], "", jobId);
    published := editor.PublishPost(store, Some(jobId), at);
    PublishSpec(afterGen, jobId, platforms, at);
  }
}
