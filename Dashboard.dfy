/**
 * The dashboard: each role's view of the stored jobs and applications, the
 * status update an employer makes on an application, and the figures the
 * page derives from the loaded applications.
 */
module Dashboard {
  import opened Wrappers
  import opened Lists
  import opened Types
  import opened Storage

  /** An employer's jobs: the stored jobs they posted, in stored order. */
  function EmployerJobs(jobs: seq<Job>, userId: string): (r: seq<Job>)
    ensures Subsequence(r, jobs)
    ensures forall i :: 0 <= i < |r| ==> r[i].postedBy == userId
    ensures forall i :: 0 <= i < |jobs| && jobs[i].postedBy == userId ==> jobs[i] in r
  {
    FilterIsSubsequence(jobs, (job: Job) => job.postedBy == userId);
    Filter(jobs, (job: Job) => job.postedBy == userId)
  }

  /** A job seeker's applications: the stored applications they made, in stored order. */
  function SeekerApplications(apps: seq<Application>, userId: string): (r: seq<Application>)
    ensures Subsequence(r, apps)
    ensures forall i :: 0 <= i < |r| ==> r[i].applicantId == userId
    ensures forall i :: 0 <= i < |apps| && apps[i].applicantId == userId ==> apps[i] in r
  {
    FilterIsSubsequence(apps, (app: Application) => app.applicantId == userId);
    Filter(apps, (app: Application) => app.applicantId == userId)
  }

  /**
   * Whether an application belongs to the employer: the jobs key is truthy and
   * the first stored job with the application's job id was posted by them.
   */
  predicate OwnsApplication(jobs: Slot<Job>, userId: string, app: Application) {
    jobs.Truthy() &&
    var job := Find(jobs.items, (j: Job) => j.id == app.jobId);
    job.Some? && job.value.postedBy == userId
  }

  /** An employer's applications: those made to a job they posted, in stored order. */
  function EmployerApplications(apps: seq<Application>, jobs: Slot<Job>, userId: string): (r: seq<Application>)
    ensures Subsequence(r, apps)
    ensures forall i :: 0 <= i < |r| ==> OwnsApplication(jobs, userId, r[i])
    ensures forall i :: 0 <= i < |apps| && OwnsApplication(jobs, userId, apps[i]) ==> apps[i] in r
  {
    FilterIsSubsequence(apps, (app: Application) => OwnsApplication(jobs, userId, app));
    Filter(apps, (app: Application) => OwnsApplication(jobs, userId, app))
  }

  /** An application in the employer's view is for one of the jobs in their job view. */
  lemma EmployerApplicationsForOwnJobs(apps: seq<Application>, jobs: Slot<Job>, userId: string, app: Application)
    requires app in EmployerApplications(apps, jobs, userId)
    ensures exists job :: job in EmployerJobs(jobs.Items(), userId) && job.id == app.jobId
  {
    var r := EmployerApplications(apps, jobs, userId);
    var k :| 0 <= k < |r| && r[k] == app;
    assert OwnsApplication(jobs, userId, r[k]);
    var i := FindIndex(jobs.items, (j: Job) => j.id == app.jobId).value;
    assert jobs.items[i] in EmployerJobs(jobs.Items(), userId);
  }

  /** An application whose job is no longer stored is left out of the employer's view. */
  lemma DanglingApplicationExcluded(apps: seq<Application>, jobs: Slot<Job>, userId: string, app: Application)
    requires forall k :: 0 <= k < |jobs.Items()| ==> jobs.Items()[k].id != app.jobId
    ensures app !in EmployerApplications(apps, jobs, userId)
  {
    if app in EmployerApplications(apps, jobs, userId) {
      EmployerApplicationsForOwnJobs(apps, jobs, userId, app);
      assert false;
    }
  }

  /** With the jobs key falsy, an employer sees no application at all. */
  lemma NoJobsNoEmployerApplications(apps: seq<Application>, jobs: Slot<Job>, userId: string)
    requires !jobs.Truthy()
    ensures EmployerApplications(apps, jobs, userId) == []
  {
  }

  /** One row of the status update: the matching application gets the new status and timestamp. */
  function SetStatus(app: Application, id: string, status: string, now: string): Application {
    if app.id == id then app.(status := status, updatedAt := now) else app
  }

  /**
   * The applications after a status update: same length, rows whose id
   * matches get the new status and timestamp and are otherwise unchanged,
   * and every other row is untouched. Any status text is accepted.
   */
  function WithStatus(apps: seq<Application>, id: string, status: string, now: string): (r: seq<Application>)
    ensures |r| == |apps|
    ensures forall i :: 0 <= i < |apps| && apps[i].id == id ==>
      r[i].status == status && r[i].updatedAt == now
      && r[i].(status := apps[i].status, updatedAt := apps[i].updatedAt) == apps[i]
    ensures forall i :: 0 <= i < |apps| && apps[i].id != id ==> r[i] == apps[i]
  {
    if apps == [] then [] else [SetStatus(apps[0], id, status, now)] + WithStatus(apps[1..], id, status, now)
  }

  /** An id that no application has leaves the collection as it was. */
  lemma UnknownIdUnchanged(apps: seq<Application>, id: string, status: string, now: string)
    requires forall i :: 0 <= i < |apps| ==> apps[i].id != id
    ensures WithStatus(apps, id, status, now) == apps
  {
  }

  /** Repeating the same update changes nothing further. */
  lemma WithStatusIdempotent(apps: seq<Application>, id: string, status: string, now: string)
    ensures WithStatus(WithStatus(apps, id, status, now), id, status, now) == WithStatus(apps, id, status, now)
  {
  }

  /**
   * Updating then filtering by a rule the update cannot affect is filtering
   * then updating: a view's rows follow the stored rows.
   */
  lemma {:induction false} FilterWithStatus(apps: seq<Application>, p: Application -> bool, id: string, status: string, now: string)
    requires forall i :: 0 <= i < |apps| ==> p(SetStatus(apps[i], id, status, now)) == p(apps[i])
    ensures Filter(WithStatus(apps, id, status, now), p) == WithStatus(Filter(apps, p), id, status, now)
  {
    if apps != [] {
      var w := WithStatus(apps, id, status, now);
      assert w[0] == SetStatus(apps[0], id, status, now) && w[1..] == WithStatus(apps[1..], id, status, now);
      assert forall i :: 0 <= i < |apps[1..]| ==> apps[1..][i] == apps[i + 1];
      FilterWithStatus(apps[1..], p, id, status, now);
    }
  }

  /** The job seeker's view of the updated store is their updated view, when both use the same timestamp. */
  lemma SeekerViewFollowsStore(apps: seq<Application>, userId: string, id: string, status: string, now: string)
    ensures SeekerApplications(WithStatus(apps, id, status, now), userId)
         == WithStatus(SeekerApplications(apps, userId), id, status, now)
  {
    FilterWithStatus(apps, (app: Application) => app.applicantId == userId, id, status, now);
  }

  /** The employer's view of the updated store is their updated view, when both use the same timestamp. */
  lemma EmployerViewFollowsStore(apps: seq<Application>, jobs: Slot<Job>, userId: string, id: string, status: string, now: string)
    ensures EmployerApplications(WithStatus(apps, id, status, now), jobs, userId)
         == WithStatus(EmployerApplications(apps, jobs, userId), id, status, now)
  {
    FilterWithStatus(apps, (app: Application) => OwnsApplication(jobs, userId, app), id, status, now);
  }

  /** The number of loaded applications with this status. */
  function StatusCount(apps: seq<Application>, status: string): (r: nat)
    ensures r <= |apps|
  {
    |Filter(apps, (app: Application) => app.status == status)|
  }

  /** The four status figures never add up to more than the number of applications. */
  lemma {:induction false} StatusCountsWithinTotal(apps: seq<Application>)
    ensures StatusCount(apps, Pending) + StatusCount(apps, Shortlisted)
          + StatusCount(apps, Rejected) + StatusCount(apps, Hired) <= |apps|
  {
    if apps != [] {
      StatusCountsWithinTotal(apps[1..]);
    }
  }

  /** The recent-applications list: the first five loaded applications, or all when fewer. */
  function Recent(apps: seq<Application>): (r: seq<Application>)
    ensures |r| <= 5 && |r| <= |apps| && r == apps[..|r|]
    ensures |r| == |apps| || |r| == 5
  {
    if |apps| <= 5 then apps else apps[..5]
  }

  class DashboardPage {
    const store: Store
    const user: Option<User>
    var jobs: seq<Job>
    var applications: seq<Application>

    /** The page starts with empty lists. */
    constructor (store: Store, user: Option<User>)
      ensures this.store == store && this.user == user
      ensures jobs == [] && applications == []
    {
      this.store := store;
      this.user := user;
      jobs := [];
      applications := [];
    }

    /**
     * `loadData`, run when someone is signed in: an employer's jobs when the
     * jobs key is truthy, and the role's applications when the applications
     * key is truthy; a list whose key is falsy keeps its previous value.
     */
    method LoadData()
      requires user.Some?
      modifies this
      ensures jobs == if user.value.role == Employer && store.jobs.Truthy()
                      then EmployerJobs(store.jobs.items, user.value.id) else old(jobs)
      ensures applications ==
        if !store.applications.Truthy() then old(applications)
        else if user.value.role == JobSeeker then SeekerApplications(store.applications.items, user.value.id)
        else EmployerApplications(store.applications.items, store.jobs, user.value.id)
    {
      var u := user.value;
      if u.role == Employer && store.jobs.Truthy() {
        jobs := EmployerJobs(store.jobs.items, u.id);
      }
      if store.applications.Truthy() {
        if u.role == JobSeeker {
          applications := SeekerApplications(store.applications.items, u.id);
        } else {
          applications := EmployerApplications(store.applications.items, store.jobs, u.id);
        }
      }
    }

    /**
     * `updateApplicationStatus`: when the applications key is truthy, rewrites
     * the stored applications and the loaded list by the same rule. Each list
     * gets its own clock value, so the two timestamps may differ; every
     * rewritten row of one list shares that list's value.
     */
    method UpdateApplicationStatus(id: string, status: string, storedAt: string, shownAt: string)
      modifies this, store
      ensures store.jobs == old(store.jobs) && store.users == old(store.users)
      ensures store.currentUser == old(store.currentUser) && jobs == old(jobs)
      ensures !old(store.applications.Truthy()) ==>
        store.applications == old(store.applications) && applications == old(applications)
      ensures old(store.applications.Truthy()) ==>
        store.applications == Stored(WithStatus(old(store.applications.items), id, status, storedAt))
        && applications == WithStatus(old(applications), id, status, shownAt)
    {
      if store.applications.Truthy() {
        store.applications := Stored(WithStatus(store.applications.items, id, status, storedAt));
        applications := WithStatus(applications, id, status, shownAt);
      }
    }
  }
}
