/**
 * The job details page: the job looked up by the route id, whether the
 * signed-in user has already applied, and the apply action that appends an
 * application to the stored collection.
 */
module JobDetails {
  import opened Wrappers
  import opened Lists
  import opened Types
  import opened Storage

  /**
   * `loadJob`: with a truthy jobs key and a non-empty route id, the first
   * stored job with that id; nothing otherwise.
   */
  function LoadJob(jobs: Slot<Job>, id: string): (r: Option<Job>)
    ensures r.Some? <==> jobs.Truthy() && id != "" && exists i :: 0 <= i < |jobs.items| && jobs.items[i].id == id
    ensures r.Some? ==> exists i :: 0 <= i < |jobs.items| && jobs.items[i] == r.value && r.value.id == id
                                 && forall j :: 0 <= j < i ==> jobs.items[j].id != id
  {
    if jobs.Truthy() && id != "" then Find(jobs.items, (job: Job) => job.id == id) else None
  }

  /** The duplicate check: some application is by this user for this job. */
  predicate HasApplied(apps: seq<Application>, jobId: string, userId: string)
    ensures HasApplied(apps, jobId, userId) <==>
      exists i :: 0 <= i < |apps| && apps[i].jobId == jobId && apps[i].applicantId == userId
  {
    Any(apps, (app: Application) => app.jobId == jobId && app.applicantId == userId)
  }

  /**
   * `checkApplicationStatus`: with a signed-in user, a route id and a truthy
   * applications key, the duplicate check; otherwise the flag keeps its value.
   */
  function CheckApplicationStatus(user: Option<User>, id: string, apps: Slot<Application>, previous: bool): (r: bool)
    ensures user.Some? && id != "" && apps.Truthy() ==> (r <==> HasApplied(apps.items, id, user.value.id))
    ensures !(user.Some? && id != "" && apps.Truthy()) ==> r == previous
  {
    if user.Some? && id != "" && apps.Truthy() then HasApplied(apps.items, id, user.value.id) else previous
  }

  /**
   * The application `handleApply` builds: a snapshot of the job and the
   * applicant, pending. The clock is read once for each timestamp, so the
   * two are separate inputs.
   */
  function NewApplication(job: Job, user: User, id: string, appliedAt: string, updatedAt: string): (a: Application)
    ensures a.id == id && a.jobId == job.id && a.jobTitle == job.title && a.company == job.company
    ensures a.applicantId == user.id && a.applicantName == user.name && a.applicantEmail == user.email
    ensures a.status == Pending && a.resumeUrl.None? && a.coverLetter.None?
    ensures a.appliedAt == appliedAt && a.updatedAt == updatedAt
  {
    Application(id, job.id, job.title, job.company, user.id, user.name, user.email, None, None, Pending, appliedAt, updatedAt)
  }

  /** After the append, the duplicate check for the job and the applicant holds, and the earlier applications are untouched. */
  lemma AppliedAfterAppend(apps: seq<Application>, job: Job, user: User, id: string, appliedAt: string, updatedAt: string)
    ensures HasApplied(apps + [NewApplication(job, user, id, appliedAt, updatedAt)], job.id, user.id)
    ensures (apps + [NewApplication(job, user, id, appliedAt, updatedAt)])[..|apps|] == apps
  {
    var all := apps + [NewApplication(job, user, id, appliedAt, updatedAt)];
    assert all[|apps|].jobId == job.id && all[|apps|].applicantId == user.id;
  }

  /** Applying does not look for an earlier application: every apply adds one more for the same pair. */
  lemma ApplyAddsOneMore(apps: seq<Application>, job: Job, user: User, id: string, appliedAt: string, updatedAt: string)
    ensures var p := (app: Application) => app.jobId == job.id && app.applicantId == user.id;
      |Filter(apps + [NewApplication(job, user, id, appliedAt, updatedAt)], p)| == |Filter(apps, p)| + 1
  {
    var p := (app: Application) => app.jobId == job.id && app.applicantId == user.id;
    var a := NewApplication(job, user, id, appliedAt, updatedAt);
    FilterAppend(apps, [a], p);
    assert Filter([a], p) == [a] by {
      assert [a][1..] == [];
    }
  }

  /** How `handleApply` ends. */
  datatype ApplyOutcome =
    | SignInRequired   // no user: sent to the sign-in page
    | NotJobSeeker     // an employer: told that only job seekers apply
    | Failed           // no job loaded: the lookup of the job throws and the error is reported
    | Applied

  class JobDetailsPage {
    const store: Store
    const user: Option<User>
    const id: string
    var job: Option<Job>
    var hasApplied: bool

    /** The loaded job is the one the route names. */
    ghost predicate Valid()
      reads this
    {
      job.Some? ==> job.value.id == id
    }

    /** The page's effect on first render: the job lookup, then the duplicate check. */
    constructor (store: Store, user: Option<User>, id: string)
      ensures this.store == store && this.user == user && this.id == id
      ensures job == LoadJob(store.jobs, id)
      ensures hasApplied == CheckApplicationStatus(user, id, store.applications, false)
      ensures Valid()
    {
      this.store := store;
      this.user := user;
      this.id := id;
      job := LoadJob(store.jobs, id);
      hasApplied := CheckApplicationStatus(user, id, store.applications, false);
    }

    /**
     * `handleApply`: a signed-in job seeker on a loaded job gets one new
     * pending application appended to the stored ones; no other case writes.
     */
    method HandleApply(newId: string, appliedAt: string, updatedAt: string) returns (outcome: ApplyOutcome)
      requires Valid()
      modifies this, store
      ensures Valid() && job == old(job)
      ensures store.jobs == old(store.jobs) && store.users == old(store.users)
      ensures store.currentUser == old(store.currentUser)
      ensures user.None? <==> outcome == SignInRequired
      ensures user.Some? && user.value.role != JobSeeker <==> outcome == NotJobSeeker
      ensures user.Some? && user.value.role == JobSeeker && job.None? <==> outcome == Failed
      ensures outcome != Applied ==> store.applications == old(store.applications) && hasApplied == old(hasApplied)
      ensures outcome == Applied ==>
        store.applications == Stored(old(store.applications.Items()) + [NewApplication(job.value, user.value, newId, appliedAt, updatedAt)])
        && hasApplied && HasApplied(store.applications.items, id, user.value.id)
    {
      if user.None? {
        return SignInRequired;
      }
      if user.value.role != JobSeeker {
        return NotJobSeeker;
      }
      if job.None? {
        return Failed;
      }
      var apps := store.applications.Items();
      var application := NewApplication(job.value, user.value, newId, appliedAt, updatedAt);
      AppliedAfterAppend(apps, job.value, user.value, newId, appliedAt, updatedAt);
      store.applications := Stored(apps + [application]);
      hasApplied := true;
      outcome := Applied;
    }
  }
}
