/**
 The video job table of internal/core/usecase/video.go: an atomic counter hands out a number,
 and a separate critical section stores the job under the name made from it.
 */
module VideoJobs {
  import opened Domain
  import opened Integers

  datatype VideoRequest = VideoRequest(model: string, prompt: string, seconds: string, size: string)

  datatype Video = Video(
    id: string,
    status: string,
    progress: int,
    model: string,
    prompt: string,
    seconds: string,
    size: string,
    createdAt: int,
    completedAt: Option<int>)

  /** The id of the n-th job handed out; the counter is an int64 and wraps. */
  function VideoId(n: int): string {
    "video_" + Decimal(Int64(n))
  }

  function NewJob(id: string, req: VideoRequest, now: int): Video {
    Video(id, "completed", 100, req.model, req.prompt,
          if req.seconds == "" then "4" else req.seconds,
          if req.size == "" then "720x1280" else req.size,
          now, Some(now))
  }

  /** Why a request is refused before any number is taken, if it is. */
  function Refusal(req: VideoRequest, scenario: Result<Scenario, UseCaseError>): Option<UseCaseError> {
    if req.model == "" || req.prompt == "" then Some(InvalidRequest)
    else match scenario
      case Err(e) => Some(e)
      case Ok(sc) => if sc.error.Some? then Some(Injected(sc.error.value)) else None
  }

  function Find(jobs: map<string, Video>, id: string): Result<Video, UseCaseError> {
    if id in jobs then Ok(jobs[id]) else Err(NotFound)
  }

  /** Two numbers name the same job exactly when they differ by a multiple of 2^64. */
  lemma VideoIdCollision(m: int, n: int)
    ensures VideoId(m) == VideoId(n) <==> Same(m, n)
  {
    Int64Meaning(m);
    Int64Meaning(n);
    Int64Agree(m, n);
    assert VideoId(m)[6..] == Decimal(Int64(m)) && VideoId(n)[6..] == Decimal(Int64(n));
    if VideoId(m) == VideoId(n) {
      DecimalInjective(Int64(m), Int64(n));
    }
  }

  lemma Int64Agree(m: int, n: int)
    ensures Int64(m) == Int64(n) <==> Same(m, n)
  {
    SameRemainder(m + TWO63, n + TWO63);
    SameShift(m, n, TWO63);
  }

  lemma VideoIdInjective(m: int, n: int)
    requires 1 <= m <= TWO64 && 1 <= n <= TWO64
    ensures VideoId(m) == VideoId(n) <==> m == n
  {
    VideoIdCollision(m, n);
    SameWord(m - 1, n - 1);
    SameShift(m - 1, n - 1, 1);
  }

  // ---- One caller at a time ----

  class VideoTable {
    var jobs: map<string, Video>
    var nextId: int

    constructor ()
      ensures jobs == map[] && nextId == 0
    {
      jobs := map[];
      nextId := 0;
    }

    /** `atomic.AddInt64(&v.nextID, 1)` */
    method TakeNumber() returns (n: int)
      modifies `nextId
      ensures n == nextId == Int64(old(nextId) + 1)
    {
      nextId := Int64(nextId + 1);
      n := nextId;
    }

    /** The critical section of `Create`. */
    method Insert(job: Video)
      modifies `jobs
      ensures jobs == old(jobs)[job.id := job]
    {
      jobs := jobs[job.id := job];
    }

    method Create(req: VideoRequest, scenario: Result<Scenario, UseCaseError>, now: int)
      returns (r: Result<Video, UseCaseError>)
      modifies this
      ensures Refusal(req, scenario).Some? ==>
                r == Err(Refusal(req, scenario).value) && jobs == old(jobs) && nextId == old(nextId)
      ensures Refusal(req, scenario).None? ==>
                && nextId == Int64(old(nextId) + 1)
                && r == Ok(NewJob("video_" + Decimal(nextId), req, now))
                && Describes(r.value, req, now)
                && jobs == old(jobs)[r.value.id := r.value]
    {
      if req.model == "" || req.prompt == "" {
        return Err(InvalidRequest);
      }
      if scenario.Err? {
        return Err(scenario.error);
      }
      if scenario.value.error.Some? {
        return Err(Injected(scenario.value.error.value));
      }
      var seconds := req.seconds;
      if seconds == "" {
        seconds := "4";
      }
      var size := req.size;
      if size == "" {
        size := "720x1280";
      }
      var n := TakeNumber();
      var id := "video_" + Decimal(n);
      var job := Video(id, "completed", 100, req.model, req.prompt, seconds, size, now, Some(now));
      Insert(job);
      r := Ok(job);
    }

    method Get(id: string) returns (r: Result<Video, UseCaseError>)
      ensures r == Find(jobs, id)
    {
      if id !in jobs {
        return Err(NotFound);
      }
      r := Ok(jobs[id]);
    }

    /** The content type of a job's content; the bytes are a constant placeholder. */
    method Content(id: string) returns (r: Result<string, UseCaseError>)
      ensures r == if id in jobs then Ok("video/mp4") else Err(NotFound)
    {
      if id !in jobs {
        return Err(NotFound);
      }
      r := Ok("video/mp4");
    }
  }

  // ---- Any number of callers ----

  /** Where one `Create` call stands; the number n is the counter's n-th value. */
  datatype Call =
    | Checked(req: VideoRequest)
    | Numbered(n: nat, job: Video)
    | Returned(n: nat, job: Video)
    | Refused(error: UseCaseError)

  datatype State = State(nextId: int, issued: nat, jobs: map<string, Video>, calls: map<nat, Call>)

  datatype Step =
    | Begin(call: nat, req: VideoRequest, scenario: Result<Scenario, UseCaseError>)
    | Allocate(call: nat, now: int)
    | Store(call: nat)

  predicate Enabled(s: State, step: Step) {
    match step
    case Begin(c, _, _) => c !in s.calls
    case Allocate(c, _) => c in s.calls && s.calls[c].Checked?
    case Store(c) => c in s.calls && s.calls[c].Numbered?
  }

  function Apply(s: State, step: Step): State
    requires Enabled(s, step)
  {
    match step
    case Begin(c, req, scenario) =>
      var refusal := Refusal(req, scenario);
      s.(calls := s.calls[c := if refusal.Some? then Refused(refusal.value) else Checked(req)])
    case Allocate(c, now) =>
      var nextId := Int64(s.nextId + 1);
      var job := NewJob("video_" + Decimal(nextId), s.calls[c].req, now);
      s.(nextId := nextId, issued := s.issued + 1, calls := s.calls[c := Numbered(s.issued + 1, job)])
    case Store(c) =>
      var job := s.calls[c].job;
      s.(jobs := s.jobs[job.id := job], calls := s.calls[c := Returned(s.calls[c].n, job)])
  }

  predicate Legal(s: State, run: seq<Step>)
    decreases |run|
  {
    run == [] || (Enabled(s, run[0]) && Legal(Apply(s, run[0]), run[1..]))
  }

  function After(s: State, run: seq<Step>): State
    requires Legal(s, run)
    decreases |run|
  {
    if run == [] then s else After(Apply(s, run[0]), run[1..])
  }

  const START := State(0, 0, map[], map[])

  predicate HasNumber(call: Call) {
    call.Numbered? || call.Returned?
  }

  type Calls = map<nat, Call>

  predicate Owns(calls: Calls, c: nat) {
    c in calls && HasNumber(calls[c])
  }

  /** The calls that have returned a job. */
  function Done(calls: Calls): set<nat> {
    set c | c in calls && calls[c].Returned?
  }

  /** Each number in use was issued, and names its job. */
  ghost predicate NumbersIssued(issued: nat, calls: Calls) {
    forall c :: Owns(calls, c) ==> 1 <= calls[c].n <= issued && calls[c].job.id == VideoId(calls[c].n)
  }

  /** No two calls share a number. */
  ghost predicate NumbersApart(calls: Calls) {
    forall c, d :: Owns(calls, c) && Owns(calls, d) && c != d ==> calls[c].n != calls[d].n
  }

  /** Each returned job is in the table as it was returned. */
  ghost predicate JobsKept(jobs: map<string, Video>, calls: Calls) {
    forall c :: c in Done(calls) ==> calls[c].job.id in jobs && jobs[calls[c].job.id] == calls[c].job
  }

  ghost predicate OwnedBySome(calls: Calls, id: string) {
    exists c :: c in Done(calls) && calls[c].job.id == id
  }

  /** Nothing else is in the table. */
  ghost predicate JobsOwned(jobs: map<string, Video>, calls: Calls) {
    (forall id :: id in jobs ==> OwnedBySome(calls, id)) && |jobs| == |Done(calls)|
  }

  ghost predicate Inv(s: State) {
    && s.nextId == Int64(s.issued)
    && NumbersIssued(s.issued, s.calls)
    && NumbersApart(s.calls)
    && JobsKept(s.jobs, s.calls)
    && JobsOwned(s.jobs, s.calls)
  }

  lemma NextNumber(s: State)
    requires Inv(s)
    ensures Int64(s.nextId + 1) == Int64(s.issued + 1)
    ensures "video_" + Decimal(Int64(s.nextId + 1)) == VideoId(s.issued + 1)
  {
    Int64Meaning(s.issued);
    SameShift(s.nextId, s.issued, 1);
    Int64Agree(s.nextId + 1, s.issued + 1);
  }

  /** A job that waits to be stored has a name that no stored job has. */
  lemma PendingIsNew(s: State, c: nat)
    requires Inv(s) && s.issued <= TWO64
    requires c in s.calls && s.calls[c].Numbered?
    ensures s.calls[c].job.id !in s.jobs
  {
    var id := s.calls[c].job.id;
    if id in s.jobs {
      assert OwnedBySome(s.calls, id);
      var d :| d in Done(s.calls) && s.calls[d].job.id == id;
      assert Owns(s.calls, c) && Owns(s.calls, d);
      VideoIdInjective(s.calls[c].n, s.calls[d].n);
    }
  }

  /** A call that does not return leaves the table's invariants alone. */
  lemma TableUnchanged(jobs: map<string, Video>, calls: Calls, c: nat, call: Call)
    requires JobsKept(jobs, calls) && JobsOwned(jobs, calls)
    requires !call.Returned? && (c in calls ==> !calls[c].Returned?)
    ensures JobsKept(jobs, calls[c := call]) && JobsOwned(jobs, calls[c := call])
  {
    var calls' := calls[c := call];
    assert c !in Done(calls) && c !in Done(calls');
    assert forall d :: d in Done(calls) ==> d != c && calls'[d] == calls[d];
    assert Done(calls') == Done(calls);
    forall id | id in jobs
      ensures OwnedBySome(calls', id)
    {
      assert OwnedBySome(calls, id);
      var d :| d in Done(calls) && calls[d].job.id == id;
      assert d in Done(calls') && calls'[d].job.id == id;
    }
  }

  lemma BeginKeepsInv(s: State, c: nat, call: Call)
    requires Inv(s) && c !in s.calls && !HasNumber(call)
    ensures Inv(s.(calls := s.calls[c := call]))
  {
    var calls' := s.calls[c := call];
    assert forall d :: Owns(calls', d) ==> Owns(s.calls, d) && calls'[d] == s.calls[d];
    TableUnchanged(s.jobs, s.calls, c, call);
  }

  lemma AllocateKeepsNumbers(issued: nat, calls: Calls, c: nat, call: Call)
    requires NumbersIssued(issued, calls) && NumbersApart(calls) && c in calls && calls[c].Checked?
    requires call.Numbered? && call.n == issued + 1 && call.job.id == VideoId(call.n)
    ensures NumbersIssued(issued + 1, calls[c := call]) && NumbersApart(calls[c := call])
  {
    var calls' := calls[c := call];
    assert forall d :: Owns(calls', d) && d != c ==> Owns(calls, d) && calls'[d] == calls[d];
  }

  lemma AllocateKeepsInv(s: State, c: nat, now: int)
    requires Inv(s) && Enabled(s, Allocate(c, now))
    ensures Inv(Apply(s, Allocate(c, now)))
  {
    NextNumber(s);
    var job := NewJob(VideoId(s.issued + 1), s.calls[c].req, now);
    var call := Numbered(s.issued + 1, job);
    AllocateKeepsNumbers(s.issued, s.calls, c, call);
    TableUnchanged(s.jobs, s.calls, c, call);
    var s' := State(Int64(s.issued + 1), s.issued + 1, s.jobs, s.calls[c := call]);
    assert Apply(s, Allocate(c, now)) == s';
  }

  lemma StoreKeepsNumbers(issued: nat, calls: Calls, c: nat)
    requires NumbersIssued(issued, calls) && NumbersApart(calls) && c in calls && calls[c].Numbered?
    ensures var calls' := calls[c := Returned(calls[c].n, calls[c].job)];
      NumbersIssued(issued, calls') && NumbersApart(calls')
  {
    var calls' := calls[c := Returned(calls[c].n, calls[c].job)];
    assert forall d :: Owns(calls', d) ==>
      Owns(calls, d) && calls'[d].n == calls[d].n && calls'[d].job == calls[d].job;
  }

  lemma StoreKeepsJobs(jobs: map<string, Video>, calls: Calls, c: nat, n: nat, job: Video)
    requires JobsKept(jobs, calls) && c in calls && !calls[c].Returned? && job.id !in jobs
    ensures JobsKept(jobs[job.id := job], calls[c := Returned(n, job)])
  {
    assert Done(calls[c := Returned(n, job)]) == Done(calls) + {c};
  }

  lemma StoreKeepsOwners(jobs: map<string, Video>, calls: Calls, c: nat, n: nat, job: Video)
    requires JobsOwned(jobs, calls) && c in calls && !calls[c].Returned? && job.id !in jobs
    ensures JobsOwned(jobs[job.id := job], calls[c := Returned(n, job)])
  {
    var jobs', calls' := jobs[job.id := job], calls[c := Returned(n, job)];
    assert Done(calls') == Done(calls) + {c};
    forall id | id in jobs'
      ensures OwnedBySome(calls', id)
    {
      if id == job.id {
        assert c in Done(calls') && calls'[c].job.id == id;
      } else {
        assert OwnedBySome(calls, id);
        var d :| d in Done(calls) && calls[d].job.id == id;
        assert d in Done(calls') && calls'[d].job.id == id;
      }
    }
  }

  lemma StoreKeepsInv(s: State, c: nat)
    requires Inv(s) && s.issued <= TWO64 && Enabled(s, Store(c))
    ensures Inv(Apply(s, Store(c)))
  {
    PendingIsNew(s, c);
    StoreKeepsNumbers(s.issued, s.calls, c);
    StoreKeepsJobs(s.jobs, s.calls, c, s.calls[c].n, s.calls[c].job);
    StoreKeepsOwners(s.jobs, s.calls, c, s.calls[c].n, s.calls[c].job);
  }

  lemma StepKeepsInv(s: State, step: Step)
    requires Inv(s) && s.issued <= TWO64 && Enabled(s, step)
    ensures Inv(Apply(s, step))
    ensures s.issued <= Apply(s, step).issued
  {
    match step
    case Begin(c, req, scenario) =>
      var refusal := Refusal(req, scenario);
      BeginKeepsInv(s, c, if refusal.Some? then Refused(refusal.value) else Checked(req));
    case Allocate(c, now) => AllocateKeepsInv(s, c, now);
    case Store(c) => StoreKeepsInv(s, c);
  }

  lemma {:induction false} IssuedGrows(s: State, run: seq<Step>)
    requires Legal(s, run)
    ensures s.issued <= After(s, run).issued
    decreases |run|
  {
    if run != [] {
      IssuedGrows(Apply(s, run[0]), run[1..]);
    }
  }

  lemma {:induction false} RunKeepsInv(s: State, run: seq<Step>)
    requires Inv(s) && Legal(s, run) && After(s, run).issued <= TWO64
    ensures Inv(After(s, run))
    decreases |run|
  {
    if run != [] {
      IssuedGrows(s, run);
      StepKeepsInv(s, run[0]);
      RunKeepsInv(Apply(s, run[0]), run[1..]);
    }
  }

  lemma StartInv()
    ensures Inv(START)
  {
    assert Done(START.calls) == {};
    Int64Meaning(0);
  }

  /**
   Over every interleaving of any number of calls, as long as at most 2^64 numbers were taken:
   all names in flight or stored are different, no store overwrites a job, and the table holds
   one job for each call that returned one.
   */
  lemma EveryRunKeepsJobsApart(run: seq<Step>)
    requires Legal(START, run) && After(START, run).issued <= TWO64
    ensures var s := After(START, run);
      && (forall c :: Owns(s.calls, c) ==>
            1 <= s.calls[c].n <= s.issued && s.calls[c].job.id == "video_" + Decimal(Int64(s.calls[c].n)))
      && (forall c, d :: Owns(s.calls, c) && Owns(s.calls, d) && c != d ==> s.calls[c].job.id != s.calls[d].job.id)
      && (forall c :: c in s.calls && s.calls[c].Numbered? ==> s.calls[c].job.id !in s.jobs)
      && |s.jobs| == |Done(s.calls)|
  {
    StartInv();
    RunKeepsInv(START, run);
    var s := After(START, run);
    forall c, d | Owns(s.calls, c) && Owns(s.calls, d) && c != d
      ensures s.calls[c].job.id != s.calls[d].job.id
    {
      VideoIdInjective(s.calls[c].n, s.calls[d].n);
    }
    forall c | c in s.calls && s.calls[c].Numbered?
      ensures s.calls[c].job.id !in s.jobs
    {
      PendingIsNew(s, c);
    }
  }

  lemma {:induction false} ReturnedStays(s: State, c: nat, run: seq<Step>)
    requires Legal(s, run) && c in s.calls && s.calls[c].Returned?
    ensures c in After(s, run).calls && After(s, run).calls[c] == s.calls[c]
    decreases |run|
  {
    if run != [] {
      ReturnedStays(Apply(s, run[0]), c, run[1..]);
    }
  }

  lemma {:induction false} LegalConcat(s: State, a: seq<Step>, b: seq<Step>)
    requires Legal(s, a) && Legal(After(s, a), b)
    ensures Legal(s, a + b) && After(s, a + b) == After(After(s, a), b)
    decreases |a|
  {
    if a == [] {
      assert a + b == b;
    } else {
      assert (a + b)[1..] == a[1..] + b;
      LegalConcat(Apply(s, a[0]), a[1..], b);
    }
  }

  /** A job that was returned is found, unchanged, by every later lookup. */
  lemma ReturnedJobIsKept(before: seq<Step>, c: nat, after: seq<Step>)
    requires Legal(START, before) && Legal(After(START, before), after)
    requires After(After(START, before), after).issued <= TWO64
    requires c in After(START, before).calls && After(START, before).calls[c].Returned?
    ensures var job := After(START, before).calls[c].job;
      Find(After(After(START, before), after).jobs, job.id) == Ok(job)
  {
    LegalConcat(START, before, after);
    StartInv();
    RunKeepsInv(START, before + after);
    ReturnedStays(After(START, before), c, after);
    assert c in Done(After(After(START, before), after).calls);
  }

  lemma LegalCons(s: State, step: Step, rest: seq<Step>)
    requires Enabled(s, step) && Legal(Apply(s, step), rest)
    ensures Legal(s, [step] + rest)
    ensures After(s, [step] + rest) == After(Apply(s, step), rest)
  {
    assert ([step] + rest)[1..] == rest;
  }

  lemma ThreeSteps(s: State, a: Step, b: Step, c: Step)
    requires Enabled(s, a) && Enabled(Apply(s, a), b) && Enabled(Apply(Apply(s, a), b), c)
    ensures Legal(s, [a, b, c]) && After(s, [a, b, c]) == Apply(Apply(Apply(s, a), b), c)
  {
    var s1 := Apply(s, a);
    var s2 := Apply(s1, b);
    LegalCons(s2, c, []);
    LegalCons(s1, b, [c]);
    LegalCons(s, a, [b, c]);
    assert [a, b, c] == [a] + [b, c] && [b, c] == [b] + [c] && [c] == [c] + [];
  }

  /** A call that meets no other is those three steps in a row, with the effect of `VideoTable.Create`. */
  lemma CreateAlone(s: State, c: nat, req: VideoRequest, scenario: Result<Scenario, UseCaseError>, now: int)
    requires c !in s.calls && Refusal(req, scenario).None?
    ensures var run := [Begin(c, req, scenario), Allocate(c, now), Store(c)];
      var number := Int64(s.nextId + 1);
      var job := NewJob("video_" + Decimal(number), req, now);
      && Legal(s, run)
      && After(s, run).nextId == number
      && After(s, run).jobs == s.jobs[job.id := job]
      && c in After(s, run).calls && After(s, run).calls[c] == Returned(s.issued + 1, job)
  {
    ThreeSteps(s, Begin(c, req, scenario), Allocate(c, now), Store(c));
  }

  // ---- Where a job's contents come from ----

  /** A job is the finished video that its request asks for, of four seconds and 720x1280 by default. */
  ghost predicate Describes(job: Video, req: VideoRequest, now: int) {
    && job.status == "completed" && job.progress == 100
    && job.model == req.model && job.prompt == req.prompt
    && job.seconds == (if req.seconds == "" then "4" else req.seconds)
    && job.size == (if req.size == "" then "720x1280" else req.size)
    && job.createdAt == now && job.completedAt == Some(now)
  }

  lemma {:induction false} JobStays(s: State, c: nat, run: seq<Step>)
    requires Legal(s, run) && Owns(s.calls, c)
    ensures Owns(After(s, run).calls, c) && After(s, run).calls[c].job == s.calls[c].job
    decreases |run|
  {
    if run != [] {
      JobStays(Apply(s, run[0]), c, run[1..]);
    }
  }

  lemma {:induction false} JobOfChecked(s: State, c: nat, run: seq<Step>) returns (now: int)
    requires Legal(s, run) && c in s.calls && s.calls[c].Checked? && Owns(After(s, run).calls, c)
    ensures Allocate(c, now) in run && Describes(After(s, run).calls[c].job, s.calls[c].req, now)
    decreases |run|
  {
    var next := Apply(s, run[0]);
    if run[0].Allocate? && run[0].call == c {
      now := run[0].now;
      JobStays(next, c, run[1..]);
    } else {
      now := JobOfChecked(next, c, run[1..]);
    }
  }

  lemma {:induction false} RefusedStays(s: State, c: nat, run: seq<Step>)
    requires Legal(s, run) && c in s.calls && s.calls[c].Refused?
    ensures c in After(s, run).calls && After(s, run).calls[c] == s.calls[c]
    decreases |run|
  {
    if run != [] {
      RefusedStays(Apply(s, run[0]), c, run[1..]);
    }
  }

  lemma {:induction false} JobOfNewCall(s: State, c: nat, run: seq<Step>)
    returns (req: VideoRequest, scenario: Result<Scenario, UseCaseError>, now: int)
    requires Legal(s, run) && c !in s.calls && Owns(After(s, run).calls, c)
    ensures Begin(c, req, scenario) in run && Allocate(c, now) in run
    ensures Describes(After(s, run).calls[c].job, req, now)
    ensures req.model != "" && req.prompt != "" && scenario.Ok? && scenario.value.error.None?
    decreases |run|
  {
    var next := Apply(s, run[0]);
    if run[0].Begin? && run[0].call == c {
      req, scenario := run[0].req, run[0].scenario;
      if Refusal(req, scenario).Some? {
        RefusedStays(next, c, run[1..]);
      }
      now := JobOfChecked(next, c, run[1..]);
    } else {
      req, scenario, now := JobOfNewCall(next, c, run[1..]);
    }
  }

  /**
   In every interleaving a job in flight, stored or returned has the contents that its own call
   asked for, at the time at which that call took its number; and only sound calls get a job.
   */
  lemma JobComesFromItsCall(run: seq<Step>, c: nat)
    returns (req: VideoRequest, scenario: Result<Scenario, UseCaseError>, now: int)
    requires Legal(START, run) && Owns(After(START, run).calls, c)
    ensures Begin(c, req, scenario) in run && Allocate(c, now) in run
    ensures Describes(After(START, run).calls[c].job, req, now)
    ensures req.model != "" && req.prompt != "" && scenario.Ok? && scenario.value.error.None?
  {
    req, scenario, now := JobOfNewCall(START, c, run);
  }

  lemma {:induction false} RefusedNewCall(s: State, c: nat, run: seq<Step>)
    returns (req: VideoRequest, scenario: Result<Scenario, UseCaseError>)
    requires Legal(s, run) && c !in s.calls && c in After(s, run).calls && After(s, run).calls[c].Refused?
    ensures Begin(c, req, scenario) in run
    ensures var e := After(s, run).calls[c].error;
      if req.model == "" || req.prompt == "" then e == InvalidRequest
      else if scenario.Err? then e == scenario.error
      else scenario.value.error.Some? && e == Injected(scenario.value.error.value)
    decreases |run|
  {
    var next := Apply(s, run[0]);
    if run[0].Begin? && run[0].call == c {
      req, scenario := run[0].req, run[0].scenario;
      if Refusal(req, scenario).Some? {
        RefusedStays(next, c, run[1..]);
      } else {
        CheckedIsNotRefused(next, c, run[1..]);
      }
    } else {
      req, scenario := RefusedNewCall(next, c, run[1..]);
    }
  }

  lemma {:induction false} CheckedIsNotRefused(s: State, c: nat, run: seq<Step>)
    requires Legal(s, run) && c in s.calls && !s.calls[c].Refused?
    ensures c in After(s, run).calls && !After(s, run).calls[c].Refused?
    decreases |run|
  {
    if run != [] {
      CheckedIsNotRefused(Apply(s, run[0]), c, run[1..]);
    }
  }

  /** And a refused call was refused for the first of its own faults. */
  lemma RefusedForItsFault(run: seq<Step>, c: nat)
    returns (req: VideoRequest, scenario: Result<Scenario, UseCaseError>)
    requires Legal(START, run) && c in After(START, run).calls && After(START, run).calls[c].Refused?
    ensures Begin(c, req, scenario) in run
    ensures var e := After(START, run).calls[c].error;
      if req.model == "" || req.prompt == "" then e == InvalidRequest
      else if scenario.Err? then e == scenario.error
      else scenario.value.error.Some? && e == Injected(scenario.value.error.value)
  {
    req, scenario := RefusedNewCall(START, c, run);
  }

  /** The bound is exact: the number after 2^64 others is the first one again. */
  lemma WrapAroundCollides()
    ensures VideoId(1 + TWO64) == VideoId(1)
  {
    VideoIdCollision(1 + TWO64, 1);
  }
}
