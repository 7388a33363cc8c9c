/** The application store: the ordered build-job table, the call log, the four
    daily counters and the selected business, with the actions that replace them,
    and the projection that is persisted. */
module Store {
  import opened Types

  /** A field after a spread: the update's value when it names the field, the old one otherwise. */
  predicate Overrides<T(==)>(p: Patch<T>, merged: T, current: T) {
    (p.Put? ==> merged == p.value) && (p.Keep? ==> merged == current)
  }

  /** `{ ...job, ...updates }`: every field the update names takes its value,
      every other field keeps the job's. */
  function Merge(job: BuildJob, u: JobPatch): (r: BuildJob)
    ensures u == NoChange ==> r == job
    ensures Overrides(u.id, r.id, job.id) && Overrides(u.businessId, r.businessId, job.businessId)
    ensures Overrides(u.businessName, r.businessName, job.businessName) && Overrides(u.package, r.package, job.package)
    ensures Overrides(u.amount, r.amount, job.amount) && Overrides(u.status, r.status, job.status)
    ensures Overrides(u.paymentStatus, r.paymentStatus, job.paymentStatus)
    ensures Overrides(u.triggeredAt, r.triggeredAt, job.triggeredAt)
    ensures Overrides(u.previewUrl, r.previewUrl, job.previewUrl)
    ensures Overrides(u.errorMessage, r.errorMessage, job.errorMessage)
    ensures Overrides(u.deploymentStatus, r.deploymentStatus, job.deploymentStatus)
  {
    BuildJob(
      Apply(u.id, job.id),
      Apply(u.businessId, job.businessId),
      Apply(u.businessName, job.businessName),
      Apply(u.package, job.package),
      Apply(u.amount, job.amount),
      Apply(u.status, job.status),
      Apply(u.paymentStatus, job.paymentStatus),
      Apply(u.triggeredAt, job.triggeredAt),
      Apply(u.previewUrl, job.previewUrl),
      Apply(u.errorMessage, job.errorMessage),
      Apply(u.deploymentStatus, job.deploymentStatus))
  }

  /** `{ ...a, ...b }` of two update objects. */
  function Combine(a: JobPatch, b: JobPatch): JobPatch {
    JobPatch(
      Then(a.id, b.id),
      Then(a.businessId, b.businessId),
      Then(a.businessName, b.businessName),
      Then(a.package, b.package),
      Then(a.amount, b.amount),
      Then(a.status, b.status),
      Then(a.paymentStatus, b.paymentStatus),
      Then(a.triggeredAt, b.triggeredAt),
      Then(a.previewUrl, b.previewUrl),
      Then(a.errorMessage, b.errorMessage),
      Then(a.deploymentStatus, b.deploymentStatus))
  }

  /** Merging the same update twice is merging it once. */
  lemma MergeIdempotent(job: BuildJob, u: JobPatch)
    ensures Merge(Merge(job, u), u) == Merge(job, u)
  {
  }

  /** Two successive merges are one merge of the combined update. */
  lemma MergeSequential(job: BuildJob, a: JobPatch, b: JobPatch)
    ensures Merge(Merge(job, a), b) == Merge(job, Combine(a, b))
  {
  }

  /** `buildJobs.map(job => job.id === id ? { ...job, ...updates } : job)`. */
  function UpdateJobs(jobs: seq<BuildJob>, id: string, u: JobPatch): (r: seq<BuildJob>)
    ensures |r| == |jobs|
    decreases |jobs|
  {
    if jobs == [] then []
    else [if jobs[0].id == id then Merge(jobs[0], u) else jobs[0]] + UpdateJobs(jobs[1..], id, u)
  }

  /** The update keeps the length and order of the table, merges into every job
      carrying the id and leaves every other job as it was. */
  lemma {:induction false} UpdateJobsShape(jobs: seq<BuildJob>, id: string, u: JobPatch)
    ensures |UpdateJobs(jobs, id, u)| == |jobs|
    ensures forall i :: 0 <= i < |jobs| ==>
      UpdateJobs(jobs, id, u)[i] == if jobs[i].id == id then Merge(jobs[i], u) else jobs[i]
    decreases |jobs|
  {
    if jobs != [] {
      UpdateJobsShape(jobs[1..], id, u);
    }
  }

  /** An id that is not in the table leaves it unchanged. */
  lemma UpdateJobsAbsentId(jobs: seq<BuildJob>, id: string, u: JobPatch)
    requires forall i :: 0 <= i < |jobs| ==> jobs[i].id != id
    ensures UpdateJobs(jobs, id, u) == jobs
  {
    UpdateJobsShape(jobs, id, u);
  }

  /** Applying the same update twice gives the table of applying it once
      (also when the update renames the job: the second pass then matches nothing). */
  lemma UpdateJobsIdempotent(jobs: seq<BuildJob>, id: string, u: JobPatch)
    ensures UpdateJobs(UpdateJobs(jobs, id, u), id, u) == UpdateJobs(jobs, id, u)
  {
    var once := UpdateJobs(jobs, id, u);
    UpdateJobsShape(jobs, id, u);
    UpdateJobsShape(once, id, u);
    forall i | 0 <= i < |once|
      ensures UpdateJobs(once, id, u)[i] == once[i]
    {
      MergeIdempotent(jobs[i], u);
    }
  }

  /** The counter a stat key names. */
  function Stat(d: DailyStats, k: StatKey): nat {
    match k
    case LeadsToday => d.leadsToday
    case CallsMade => d.callsMade
    case Conversions => d.conversions
    case SitesBuilt => d.sitesBuilt
  }

  /** `{ ...dailyStats, [stat]: dailyStats[stat] + 1 }`. */
  function Bump(d: DailyStats, k: StatKey): (r: DailyStats)
    ensures Stat(r, k) == Stat(d, k) + 1
    ensures forall other: StatKey :: other != k ==> Stat(r, other) == Stat(d, other)
  {
    match k
    case LeadsToday => d.(leadsToday := d.leadsToday + 1)
    case CallsMade => d.(callsMade := d.callsMade + 1)
    case Conversions => d.(conversions := d.conversions + 1)
    case SitesBuilt => d.(sitesBuilt := d.sitesBuilt + 1)
  }

  /** `getInitialStats()`. */
  const InitialStats := DailyStats(0, 0, 0, 0)

  /** The whole store as a value. */
  datatype StoreView = StoreView(
    selectedBusiness: Option<Business>,
    buildJobs: seq<BuildJob>,
    callLogs: seq<CallLog>,
    dailyStats: DailyStats)

  /** What `partialize` hands to storage. */
  datatype Persisted = Persisted(buildJobs: seq<BuildJob>, callLogs: seq<CallLog>, dailyStats: DailyStats)

  function Persist(v: StoreView): (p: Persisted)
    ensures p.buildJobs == v.buildJobs && p.callLogs == v.callLogs && p.dailyStats == v.dailyStats
  {
    Persisted(v.buildJobs, v.callLogs, v.dailyStats)
  }

  /** Loading a snapshot into a freshly created store (nothing selected yet). */
  function Rehydrate(p: Persisted): StoreView {
    StoreView(None, p.buildJobs, p.callLogs, p.dailyStats)
  }

  /** A reload restores everything but the selection, which is never stored. */
  lemma PersistRoundTrip(v: StoreView)
    ensures Rehydrate(Persist(v)) == v.(selectedBusiness := None)
    ensures Persist(Rehydrate(Persist(v))) == Persist(v)
  {
  }

  class AppStore {
    var selectedBusiness: Option<Business>
    var buildJobs: seq<BuildJob>
    var callLogs: seq<CallLog>
    var dailyStats: DailyStats

    constructor ()
      ensures selectedBusiness == None && buildJobs == [] && callLogs == []
      ensures dailyStats == InitialStats
    {
      selectedBusiness := None;
      buildJobs := [];
      callLogs := [];
      dailyStats := InitialStats;
    }

    function View(): StoreView
      reads this
    {
      StoreView(selectedBusiness, buildJobs, callLogs, dailyStats)
    }

    /** The snapshot the persistence layer writes: everything but the selection. */
    function Snapshot(): (p: Persisted)
      reads this
      ensures p == Persist(View())
      ensures Rehydrate(p) == View().(selectedBusiness := None)
    {
      Persisted(buildJobs, callLogs, dailyStats)
    }

    method SetSelectedBusiness(business: Option<Business>)
      modifies this`selectedBusiness
      ensures selectedBusiness == business
    {
      selectedBusiness := business;
    }

    /** The new job goes in front; the existing jobs follow in their order. */
    method AddBuildJob(job: BuildJob)
      modifies this`buildJobs
      ensures buildJobs == [job] + old(buildJobs)
      ensures |buildJobs| == |old(buildJobs)| + 1 && buildJobs[0] == job && buildJobs[1..] == old(buildJobs)
    {
      buildJobs := [job] + buildJobs;
    }

    method UpdateBuildJob(id: string, updates: JobPatch)
      modifies this`buildJobs
      ensures buildJobs == UpdateJobs(old(buildJobs), id, updates)
      ensures |buildJobs| == |old(buildJobs)|
      ensures forall i :: 0 <= i < |buildJobs| ==>
        buildJobs[i] == if old(buildJobs)[i].id == id then Merge(old(buildJobs)[i], updates) else old(buildJobs)[i]
    {
      UpdateJobsShape(buildJobs, id, updates);
      buildJobs := UpdateJobs(buildJobs, id, updates);
    }

    /** Prepends the log and counts the call. */
    method AddCallLog(log: CallLog)
      modifies this`callLogs, this`dailyStats
      ensures callLogs == [log] + old(callLogs)
      ensures dailyStats == Bump(old(dailyStats), CallsMade)
    {
      callLogs := [log] + callLogs;
      dailyStats := dailyStats.(callsMade := dailyStats.callsMade + 1);
    }

    method IncrementStat(stat: StatKey)
      modifies this`dailyStats
      ensures dailyStats == Bump(old(dailyStats), stat)
    {
      dailyStats := Bump(dailyStats, stat);
    }

    method ResetDailyStats()
      modifies this`dailyStats
      ensures dailyStats == InitialStats
      ensures forall k: StatKey :: Stat(dailyStats, k) == 0
    {
      dailyStats := InitialStats;
    }
  }
}
