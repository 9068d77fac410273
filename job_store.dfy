/**
 * The job routes: an in-memory store of Jobs and Applications standing for
 * the two document collections, one member per route handler. Every handler
 * answers with a status code and a body. Job ids are abstract (a `nat` stands
 * for an ObjectId); a `:id` route parameter that cannot be cast to an id makes
 * the store's lookup throw, which the handler's catch turns into a 500.
 */
module JobStore {
  import opened Wrappers
  import opened Text

  type JobId = nat
  type UserId = string

  datatype Job = Job(id: JobId, title: string, company: string, location: string,
                     description: string, postedBy: UserId, isActive: bool, createdAt: int)

  /** The body of POST /: the client's fields, including any `postedBy` it sends. */
  datatype JobBody = JobBody(title: string, company: string, location: string, description: string,
                             postedBy: Option<UserId>, isActive: bool)

  datatype Application = Application(job: JobId, applicant: UserId, resume: string, coverLetter: string)

  /** A job of GET /my-jobs with its computed `applicationCount`. */
  datatype CountedJob = CountedJob(job: Job, applicationCount: nat)

  /** One row of the count aggregation: `{_id: job, count}`. */
  datatype Group = Group(job: JobId, count: nat)

  /** A file the upload middleware stored: its original name and the clock reading when it was named. */
  datatype Upload = Upload(originalName: string, savedAt: nat)

  /** `req.files` on a multipart request: at most one file per field. */
  datatype UploadedFiles = UploadedFiles(resume: Option<Upload>, coverLetter: Option<Upload>)

  /** The `:id` route parameter. */
  datatype IdParam = ObjectId(id: JobId) | Malformed(text: string)

  /** Response bodies: data, or `{message}` / `{error}` (the handlers use both keys). */
  datatype Body<T> = Data(value: T) | Message(text: string) | Error(text: string)

  datatype Reply<T> = Reply(status: nat, body: Body<T>)

  // ---------------------------------------------------------------------------
  // Upload file names

  /** The upload `filename` rule: the clock reading in decimal, a dash, the original name. */
  function StoredName(u: Upload): (r: string)
    ensures |r| > |u.originalName|
    ensures r[|r| - |u.originalName|..] == u.originalName
    ensures r[|r| - |u.originalName| - 1] == '-'
    ensures forall i :: 0 <= i < |r| - |u.originalName| - 1 ==> IsDigit(r[i])
  {
    var d := DecimalString(u.savedAt);
    assert (d + "-" + u.originalName)[|d| + 1..] == u.originalName;
    d + "-" + u.originalName
  }

  /** Reads a stored name back: the digits before the first dash and the rest. */
  function ParseStoredName(s: string): (r: Option<Upload>)
  {
    match IndexFrom(s, "-", 0)
    case None => None
    case Some(i) =>
      if i > 0 && forall k :: 0 <= k < i ==> IsDigit(s[k])
      then Some(Upload(s[i + 1..], DecimalValue(s[..i])))
      else None
  }

  /** A stored name determines the original name and the clock reading it was made from. */
  lemma StoredNameRoundTrip(u: Upload)
    ensures ParseStoredName(StoredName(u)) == Some(u)
  {
    var d := DecimalString(u.savedAt);
    var s := StoredName(u);
    assert s == d + "-" + u.originalName;
    assert MatchAt(s, "-", |d|);
    forall j | 0 <= j < |d|
      ensures !MatchAt(s, "-", j)
    {
      assert s[j..j + 1] == [d[j]];
    }
    assert IndexFrom(s, "-", 0) == Some(|d|);
    assert s[..|d|] == d;
    assert s[|d| + 1..] == u.originalName;
    DecimalRoundTrip(u.savedAt);
  }

  // ---------------------------------------------------------------------------
  // Queries over the collections

  /** The documents of `s` that match `p`, in collection order. */
  function Filter<T(!new)>(s: seq<T>, p: T -> bool): (r: seq<T>)
    ensures |r| <= |s|
    ensures forall x :: x in r <==> x in s && p(x)
  {
    if s == [] then []
    else if p(s[0]) then [s[0]] + Filter(s[1..], p) else Filter(s[1..], p)
  }

  /** Filtering keeps every matching document as often as it occurs, and no other. */
  lemma {:induction false} FilterMultiplicity<T(!new)>(s: seq<T>, p: T -> bool)
    ensures forall x :: multiset(Filter(s, p))[x] == if p(x) then multiset(s)[x] else 0
  {
    if s != [] {
      assert s == [s[0]] + s[1..];
      FilterMultiplicity(s[1..], p);
    }
  }

  /** `findById`: the job with this id, if any. */
  function FindJob(jobs: seq<Job>, id: JobId): (r: Option<Job>)
    ensures r.Some? ==> r.value in jobs && r.value.id == id
    ensures r.None? ==> forall j :: j in jobs ==> j.id != id
  {
    if jobs == [] then None
    else if jobs[0].id == id then Some(jobs[0])
    else FindJob(jobs[1..], id)
  }

  ghost predicate NewestFirst(jobs: seq<Job>) {
    forall i, k :: 0 <= i < k < |jobs| ==> jobs[i].createdAt >= jobs[k].createdAt
  }

  function InsertNewest(x: Job, jobs: seq<Job>): (r: seq<Job>)
    requires NewestFirst(jobs)
    ensures NewestFirst(r)
    ensures multiset(r) == multiset(jobs) + multiset{x}
    ensures forall y :: y in r ==> y == x || y in jobs
  {
    if jobs == [] || x.createdAt >= jobs[0].createdAt then [x] + jobs
    else
      var rest := InsertNewest(x, jobs[1..]);
      assert jobs == [jobs[0]] + jobs[1..];
      NewestBelowHead(x, jobs, rest);
      [jobs[0]] + rest
  }

  lemma NewestBelowHead(x: Job, jobs: seq<Job>, rest: seq<Job>)
    requires NewestFirst(jobs) && NewestFirst(rest) && jobs != [] && x.createdAt < jobs[0].createdAt
    requires forall y :: y in rest ==> y == x || y in jobs[1..]
    ensures NewestFirst([jobs[0]] + rest)
  {
    forall y | y in rest ensures y.createdAt <= jobs[0].createdAt {
      if y != x {
        var k :| 0 <= k < |jobs[1..]| && jobs[1..][k] == y;
        assert jobs[k + 1] == y;
      }
    }
    var r := [jobs[0]] + rest;
    forall i, k | 0 <= i < k < |r| ensures r[i].createdAt >= r[k].createdAt {
      if i == 0 {
        assert r[k] == rest[k - 1] && r[k] in rest;
      } else {
        assert r[i] == rest[i - 1] && r[k] == rest[k - 1];
      }
    }
  }

  /** `sort('-createdAt')`: newest first; jobs created at the same time keep collection order. */
  function SortNewest(jobs: seq<Job>): (r: seq<Job>)
    ensures NewestFirst(r)
    ensures multiset(r) == multiset(jobs)
  {
    if jobs == [] then []
    else
      assert jobs == [jobs[0]] + jobs[1..];
      InsertNewest(jobs[0], SortNewest(jobs[1..]))
  }

  /** `jobs.map(j => j._id)`. */
  function IdsOf(jobs: seq<Job>): (r: seq<JobId>)
    ensures |r| == |jobs|
    ensures forall k :: 0 <= k < |jobs| ==> r[k] == jobs[k].id
  {
    if jobs == [] then [] else [jobs[0].id] + IdsOf(jobs[1..])
  }

  /** The number of applications that reference `id`. */
  function CountFor(apps: seq<Application>, id: JobId): (n: nat)
    ensures n == 0 <==> forall a :: a in apps ==> a.job != id
  {
    var matching := Filter(apps, (a: Application) => a.job == id);
    assert matching != [] ==> matching[0] in matching;
    |matching|
  }

  /** The grouping stage over the given job ids: one group per job with at least one application. */
  function Aggregate(apps: seq<Application>, ids: seq<JobId>): (r: seq<Group>)
    ensures forall g :: g in r ==> g.job in ids && g.count == CountFor(apps, g.job) && g.count > 0
  {
    if ids == [] then []
    else
      var rest := Aggregate(apps, ids[1..]);
      var n := CountFor(apps, ids[0]);
      if n > 0 then [Group(ids[0], n)] + rest else rest
  }

  /**
   * The `forEach` over the aggregation's groups: every group's job becomes a
   * key of the map, and every key maps to that job's number of applications.
   */
  method CountsMap(ghost apps: seq<Application>, groups: seq<Group>) returns (m: map<JobId, nat>)
    requires forall j :: 0 <= j < |groups| ==> groups[j].count == CountFor(apps, groups[j].job)
    ensures forall j :: 0 <= j < |groups| ==> groups[j].job in m
    ensures forall id :: id in m ==> m[id] == CountFor(apps, id)
  {
    m := map[];
    var i := 0;
    while i < |groups|
      invariant 0 <= i <= |groups|
      invariant forall id :: id in m ==> m[id] == CountFor(apps, id)
      invariant forall j :: 0 <= j < i ==> groups[j].job in m
    {
      m := m[groups[i].job := groups[i].count];
      i := i + 1;
    }
  }

  /**
   * The counts map built from the aggregation, read with the `|| 0` default,
   * gives each job of the query its number of applications.
   */
  lemma CountsMapAgrees(apps: seq<Application>, mine: seq<Job>, groups: seq<Group>,
                        counts: map<JobId, nat>)
    requires groups == Aggregate(apps, IdsOf(mine))
    requires forall j :: 0 <= j < |groups| ==> groups[j].job in counts
    requires forall id :: id in counts ==> counts[id] == CountFor(apps, id)
    ensures forall k :: 0 <= k < |mine| ==>
      (if mine[k].id in counts then counts[mine[k].id] else 0) == CountFor(apps, mine[k].id)
  {
    var ids := IdsOf(mine);
    forall k | 0 <= k < |mine|
      ensures (if mine[k].id in counts then counts[mine[k].id] else 0) == CountFor(apps, mine[k].id)
    {
      if mine[k].id !in counts {
        UngroupedHasNone(apps, ids, groups, counts, k);
      }
    }
  }

  /** A job id that no group put into the counts map has no applications. */
  lemma UngroupedHasNone(apps: seq<Application>, ids: seq<JobId>, groups: seq<Group>,
                         counts: map<JobId, nat>, k: nat)
    requires groups == Aggregate(apps, ids)
    requires forall j :: 0 <= j < |groups| ==> groups[j].job in counts
    requires k < |ids| && ids[k] !in counts
    ensures CountFor(apps, ids[k]) == 0
  {
    if CountFor(apps, ids[k]) > 0 {
      AggregateComplete(apps, ids, k);
    }
  }

  /** Every job among the ids that has an application gets a group. */
  lemma {:induction false} AggregateComplete(apps: seq<Application>, ids: seq<JobId>, k: nat)
    requires k < |ids| && CountFor(apps, ids[k]) > 0
    ensures Group(ids[k], CountFor(apps, ids[k])) in Aggregate(apps, ids)
  {
    if k > 0 {
      AggregateComplete(apps, ids[1..], k - 1);
    }
  }

  /** Every (job, applicant) pair has at most one application. */
  ghost predicate OnePerPair(apps: seq<Application>) {
    forall i, k :: 0 <= i < k < |apps| ==>
      apps[i].job != apps[k].job || apps[i].applicant != apps[k].applicant
  }

  predicate HasApplied(apps: seq<Application>, id: JobId, user: UserId) {
    exists a :: a in apps && a.job == id && a.applicant == user
  }

  // ---------------------------------------------------------------------------
  // POST /:id/apply, as a function of the collections

  datatype ApplyResult = ApplyResult(reply: Reply<()>, applications: seq<Application>)

  /**
   * The apply handler's guards in their order: the job lookup (a malformed id
   * throws), the duplicate check, the file table (absent on a non-multipart
   * request, so indexing it throws), the two files; then one insertion.
   */
  function ApplyStep(jobs: seq<Job>, apps: seq<Application>, param: IdParam, caller: UserId,
                     files: Option<UploadedFiles>): (r: ApplyResult)
    ensures param.Malformed? ==> r == ApplyResult(Reply(500, Message("Failed to apply for job")), apps)
    ensures param.ObjectId? && FindJob(jobs, param.id).None? ==>
      r == ApplyResult(Reply(404, Message("Job not found")), apps)
    ensures param.ObjectId? && FindJob(jobs, param.id).Some? && HasApplied(apps, param.id, caller) ==>
      r == ApplyResult(Reply(400, Message("You have already applied for this job")), apps)
    ensures param.ObjectId? && FindJob(jobs, param.id).Some? && !HasApplied(apps, param.id, caller)
            && files.None? ==>
      r == ApplyResult(Reply(500, Message("Failed to apply for job")), apps)
    ensures param.ObjectId? && FindJob(jobs, param.id).Some? && !HasApplied(apps, param.id, caller)
            && files.Some? && (files.value.resume.None? || files.value.coverLetter.None?) ==>
      r == ApplyResult(Reply(400, Message("Both resume and cover letter are required")), apps)
    ensures r.reply.status == 201 <==>
      param.ObjectId? && FindJob(jobs, param.id).Some? && !HasApplied(apps, param.id, caller)
      && files.Some? && files.value.resume.Some? && files.value.coverLetter.Some?
    ensures r.reply.status == 201 ==>
      r.reply.body == Message("Application submitted successfully")
      && r.applications == apps + [Application(param.id, caller, StoredName(files.value.resume.value),
                                               StoredName(files.value.coverLetter.value))]
    ensures r.reply.status != 201 ==> r.applications == apps
  {
    match param
    case Malformed(_) => ApplyResult(Reply(500, Message("Failed to apply for job")), apps)
    case ObjectId(id) =>
      if FindJob(jobs, id).None? then
        ApplyResult(Reply(404, Message("Job not found")), apps)
      else if HasApplied(apps, id, caller) then
        ApplyResult(Reply(400, Message("You have already applied for this job")), apps)
      else if files.None? then
        ApplyResult(Reply(500, Message("Failed to apply for job")), apps)
      else if files.value.resume.None? || files.value.coverLetter.None? then
        ApplyResult(Reply(400, Message("Both resume and cover letter are required")), apps)
      else
        var app := Application(id, caller, StoredName(files.value.resume.value),
                               StoredName(files.value.coverLetter.value));
        ApplyResult(Reply(201, Message("Application submitted successfully")), apps + [app])
  }

  /** Apply keeps "at most one application per (job, applicant)". */
  lemma ApplyKeepsOnePerPair(jobs: seq<Job>, apps: seq<Application>, param: IdParam, caller: UserId,
                             files: Option<UploadedFiles>)
    requires OnePerPair(apps)
    ensures OnePerPair(ApplyStep(jobs, apps, param, caller, files).applications)
  {
    var r := ApplyStep(jobs, apps, param, caller, files);
    if r.reply.status == 201 {
      var n := |apps|;
      forall i | 0 <= i < n
        ensures apps[i].job != param.id || apps[i].applicant != caller
      {
        assert apps[i] in apps;
      }
    }
  }

  /** After a successful apply, a second apply for the same job by the same caller is refused with 400 and adds nothing. */
  lemma SecondApplyRefused(jobs: seq<Job>, apps: seq<Application>, param: IdParam, caller: UserId,
                           files: Option<UploadedFiles>, files2: Option<UploadedFiles>)
    requires ApplyStep(jobs, apps, param, caller, files).reply.status == 201
    ensures var after := ApplyStep(jobs, apps, param, caller, files).applications;
      ApplyStep(jobs, after, param, caller, files2)
        == ApplyResult(Reply(400, Message("You have already applied for this job")), after)
  {
    var after := ApplyStep(jobs, apps, param, caller, files).applications;
    assert after[|after| - 1] in after;
  }

  // ---------------------------------------------------------------------------
  // The store and its handlers

  class Store {
    var jobs: seq<Job>
    var applications: seq<Application>
    var nextJobId: nat

    /** Job ids are distinct and below the next one handed out; applications reference stored jobs, one per pair. */
    ghost predicate Valid()
      reads this
    {
      (forall i :: 0 <= i < |jobs| ==> jobs[i].id < nextJobId)
      && (forall i, k :: 0 <= i < k < |jobs| ==> jobs[i].id != jobs[k].id)
      && (forall a :: a in applications ==> FindJob(jobs, a.job).Some?)
      && OnePerPair(applications)
    }

    constructor ()
      ensures Valid() && jobs == [] && applications == [] && nextJobId == 0
    {
      jobs, applications, nextJobId := [], [], 0;
    }

    /**
     * POST /: the body's `postedBy` is replaced by the caller before the
     * document is validated and created. `validate` stands for the schema's
     * validation, answering with an error message or nothing.
     */
    method CreateJob(caller: UserId, body: JobBody, validate: JobBody -> Option<string>, now: int)
      returns (r: Reply<Job>)
      requires Valid()
      modifies this
      ensures Valid()
      ensures applications == old(applications)
      ensures validate(body.(postedBy := Some(caller))).Some? ==>
        r == Reply(400, Error(validate(body.(postedBy := Some(caller))).value))
        && jobs == old(jobs) && nextJobId == old(nextJobId)
      ensures validate(body.(postedBy := Some(caller))).None? ==>
        var j := Job(old(nextJobId), body.title, body.company, body.location, body.description,
                     caller, body.isActive, now);
        r == Reply(201, Data(j)) && jobs == old(jobs) + [j] && nextJobId == old(nextJobId) + 1
      ensures r.status == 201 ==>
        r.body.Data? && r.body.value.postedBy == caller && FindJob(old(jobs), r.body.value.id).None?
    {
      var stamped := body.(postedBy := Some(caller));
      var problem := validate(stamped);
      if problem.Some? {
        return Reply(400, Error(problem.value));
      }
      var job := Job(nextJobId, stamped.title, stamped.company, stamped.location, stamped.description,
                     caller, stamped.isActive, now);
      jobs := jobs + [job];
      nextJobId := nextJobId + 1;
      r := Reply(201, Data(job));
    }

    /** GET /: the active jobs, newest first. */
    function ListJobs(): (r: Reply<seq<Job>>)
      reads this
      ensures r.status == 200 && r.body.Data?
      ensures forall j :: j in r.body.value <==> j in jobs && j.isActive
      ensures multiset(r.body.value) == multiset(Filter(jobs, (j: Job) => j.isActive))
      ensures NewestFirst(r.body.value)
    {
      FilterMultiplicity(jobs, (j: Job) => j.isActive);
      Reply(200, Data(SortNewest(Filter(jobs, (j: Job) => j.isActive))))
    }

    /** The caller's jobs, newest first: the query GET /my-jobs starts from. */
    function OwnJobs(caller: UserId): (r: seq<Job>)
      reads this
      ensures forall j :: j in r <==> j in jobs && j.postedBy == caller
      ensures multiset(r) == multiset(Filter(jobs, (j: Job) => j.postedBy == caller))
      ensures NewestFirst(r)
    {
      FilterMultiplicity(jobs, (j: Job) => j.postedBy == caller);
      SortNewest(Filter(jobs, (j: Job) => j.postedBy == caller))
    }

    /**
     * GET /my-jobs: the caller's jobs, each with the number of applications
     * that reference it (0 when none), in the query's order.
     */
    method MyJobs(caller: UserId) returns (r: Reply<seq<CountedJob>>)
      ensures r.status == 200 && r.body.Data?
      ensures |r.body.value| == |OwnJobs(caller)|
      ensures forall k :: 0 <= k < |r.body.value| ==>
        r.body.value[k].job == OwnJobs(caller)[k]
        && r.body.value[k].applicationCount == CountFor(applications, OwnJobs(caller)[k].id)
    {
      var mine := OwnJobs(caller);
      var ids := IdsOf(mine);
      var groups := Aggregate(applications, ids);
      var countsMap := CountsMap(applications, groups);
      CountsMapAgrees(applications, mine, groups, countsMap);
      var counted := seq(|mine|, k requires 0 <= k < |mine| =>
        CountedJob(mine[k], if mine[k].id in countsMap then countsMap[mine[k].id] else 0));
      r := Reply(200, Data(counted));
    }

    /**
     * GET /:id/applications: 404 for an unknown job whoever asks, then 403
     * unless the caller posted the job, then the job's applications.
     */
    function Applicants(param: IdParam, caller: UserId): (r: Reply<seq<Application>>)
      reads this
      ensures param.Malformed? ==> r == Reply(500, Message("Failed to fetch applicants"))
      ensures param.ObjectId? && FindJob(jobs, param.id).None? ==> r == Reply(404, Message("Job not found"))
      ensures param.ObjectId? && FindJob(jobs, param.id).Some? && FindJob(jobs, param.id).value.postedBy != caller ==>
        r == Reply(403, Message("Not authorized to view applicants for this job"))
      ensures r.status == 200 <==>
        param.ObjectId? && FindJob(jobs, param.id).Some? && FindJob(jobs, param.id).value.postedBy == caller
      ensures r.status == 200 ==>
        r.body.Data?
        && (forall a :: a in r.body.value <==> a in applications && a.job == param.id)
        && |r.body.value| == CountFor(applications, param.id)
    {
      match param
      case Malformed(_) => Reply(500, Message("Failed to fetch applicants"))
      case ObjectId(id) =>
        match FindJob(jobs, id)
        case None => Reply(404, Message("Job not found"))
        case Some(job) =>
          if job.postedBy != caller then Reply(403, Message("Not authorized to view applicants for this job"))
          else Reply(200, Data(Filter(applications, (a: Application) => a.job == id)))
    }

    /** GET /:id: the job when the id resolves, 404 otherwise. */
    function GetJob(param: IdParam): (r: Reply<Job>)
      reads this
      ensures param.Malformed? ==> r == Reply(500, Message("Server error"))
      ensures param.ObjectId? ==> (r.status == 200 <==> exists j :: j in jobs && j.id == param.id)
      ensures param.ObjectId? && r.status != 200 ==> r == Reply(404, Message("Job not found"))
      ensures r.status == 200 ==> r.body.Data? && r.body.value in jobs && r.body.value.id == param.id
    {
      match param
      case Malformed(_) => Reply(500, Message("Server error"))
      case ObjectId(id) =>
        match FindJob(jobs, id)
        case None => Reply(404, Message("Job not found"))
        case Some(job) => Reply(200, Data(job))
    }

    /** POST /:id/apply: the guards of `ApplyStep`, and on success one application saved. */
    method Apply(param: IdParam, caller: UserId, files: Option<UploadedFiles>) returns (r: Reply<()>)
      requires Valid()
      modifies this
      ensures Valid()
      ensures jobs == old(jobs) && nextJobId == old(nextJobId)
      ensures ApplyResult(r, applications) == ApplyStep(old(jobs), old(applications), param, caller, files)
    {
      ghost var expected := ApplyStep(jobs, applications, param, caller, files);
      ApplyKeepsOnePerPair(jobs, applications, param, caller, files);
      if param.Malformed? {
        return Reply(500, Message("Failed to apply for job"));
      }
      var jobId := param.id;
      var job := FindJob(jobs, jobId);
      if job.None? {
        return Reply(404, Message("Job not found"));
      }
      if HasApplied(applications, jobId, caller) {
        return Reply(400, Message("You have already applied for this job"));
      }
      if files.None? {
        return Reply(500, Message("Failed to apply for job"));
      }
      var resumeFile := files.value.resume;
      var coverLetterFile := files.value.coverLetter;
      if resumeFile.None? || coverLetterFile.None? {
        return Reply(400, Message("Both resume and cover letter are required"));
      }
      var newApp := Application(jobId, caller, StoredName(resumeFile.value), StoredName(coverLetterFile.value));
      applications := applications + [newApp];
      r := Reply(201, Message("Application submitted successfully"));
    }
  }

  /**
   * A recruiter posts a job: it shows up among their jobs with no
   * applications, and a different user may not see its applicants.
   */
  method PostScenario(recruiter: UserId, other: UserId, now: nat)
    returns (listed: Reply<seq<CountedJob>>, stranger: Reply<seq<Application>>)
    requires other != recruiter
    ensures listed.status == 200 && listed.body.Data? && |listed.body.value| == 1
      && listed.body.value[0].applicationCount == 0
      && listed.body.value[0].job.postedBy == recruiter
    ensures stranger == Reply(403, Message("Not authorized to view applicants for this job"))
  {
    var store := new Store();
    var created := store.CreateJob(recruiter, JobBody("Engineer", "Acme", "", "", Some(other), true),
                                   (b: JobBody) => None, now);
    var job := created.body.value;
    assert store.jobs == [job];
    assert store.OwnJobs(recruiter) == [job] by {
      assert Filter(store.jobs, (j: Job) => j.postedBy == recruiter) == [job];
    }
    listed := store.MyJobs(recruiter);
    assert FindJob(store.jobs, job.id) == Some(job);
    stranger := store.Applicants(ObjectId(job.id), other);
  }

  /**
   * A job seeker applies to a posted job with both files, then applies again:
   * the retry is refused and the owner sees exactly one application.
   */
  method RetryScenario(recruiter: UserId, seeker: UserId, now: nat)
    returns (first: Reply<()>, second: Reply<()>, owner: Reply<seq<Application>>)
    ensures first == Reply(201, Message("Application submitted successfully"))
    ensures second == Reply(400, Message("You have already applied for this job"))
    ensures owner.status == 200 && owner.body.Data? && |owner.body.value| == 1
      && owner.body.value[0].applicant == seeker
  {
    var store := new Store();
    var created := store.CreateJob(recruiter, JobBody("Engineer", "Acme", "", "", None, true),
                                   (b: JobBody) => None, now);
    var job := created.body.value;
    assert store.jobs == [job];
    var id := ObjectId(job.id);
    assert FindJob(store.jobs, job.id) == Some(job);
    var files := Some(UploadedFiles(Some(Upload("cv.pdf", now)), Some(Upload("letter.pdf", now))));
    first := store.Apply(id, seeker, files);
    var app := Application(job.id, seeker, StoredName(files.value.resume.value),
                           StoredName(files.value.coverLetter.value));
    assert store.applications == [app];
    second := store.Apply(id, seeker, files);
    owner := store.Applicants(id, recruiter);
    assert owner.body.value == Filter([app], (a: Application) => a.job == job.id);
  }

}
