/** `VideoJobManager`: the job records behind the generate, status and
    download routes, a cleanup timer per job, and the lifecycle the
    generate route drives through it.

    Redis (keys `job:<id>`) and the `/tmp/jobs` fallback (files
    `<id>.json`) are one abstract key-value store; which one is in use is
    fixed when the manager is built, as `getRedisClient()` is per process.
    Timestamps are milliseconds passed in by the caller, and a read that
    throws (a network error, a JSON parse error) is a boolean oracle. */
module JobStore {
  import opened Text
  import Pipeline

  datatype JobStatus = Pending | Processing | Completed | Error

  /** `JobMetadata`. */
  datatype Job = Job(
    id: string,
    status: JobStatus,
    input: string,
    provider: string,
    createdAt: int,
    completedAt: Option<int>,
    error: Option<string>,
    outputPath: Option<string>,
    scenario: Option<Pipeline.Scenario>,
    currentStep: Option<Pipeline.Step>,
    currentProgress: Option<int>,
    currentMessage: Option<string>)

  /** `Partial<JobMetadata>`: the fields an update supplies. */
  datatype Update = Update(
    id: Option<string>,
    status: Option<JobStatus>,
    input: Option<string>,
    provider: Option<string>,
    createdAt: Option<int>,
    completedAt: Option<int>,
    error: Option<string>,
    outputPath: Option<string>,
    scenario: Option<Pipeline.Scenario>,
    currentStep: Option<Pipeline.Step>,
    currentProgress: Option<int>,
    currentMessage: Option<string>)

  const NoChange := Update(None, None, None, None, None, None, None, None, None, None, None, None)

  function Pick<T>(supplied: Option<T>, current: T): T {
    if supplied.Some? then supplied.value else current
  }

  function PickOpt<T>(supplied: Option<T>, current: Option<T>): Option<T> {
    if supplied.Some? then supplied else current
  }

  /** `Object.assign(job, updates)`: every supplied field overwrites. */
  function Assign(job: Job, u: Update): Job {
    Job(Pick(u.id, job.id), Pick(u.status, job.status), Pick(u.input, job.input), Pick(u.provider, job.provider),
        Pick(u.createdAt, job.createdAt), PickOpt(u.completedAt, job.completedAt), PickOpt(u.error, job.error),
        PickOpt(u.outputPath, job.outputPath), PickOpt(u.scenario, job.scenario), PickOpt(u.currentStep, job.currentStep),
        PickOpt(u.currentProgress, job.currentProgress), PickOpt(u.currentMessage, job.currentMessage))
  }

  /** Two updates in a row, the later one winning field by field. */
  function Then(u: Update, v: Update): Update {
    Update(PickOpt(v.id, u.id), PickOpt(v.status, u.status), PickOpt(v.input, u.input), PickOpt(v.provider, u.provider),
           PickOpt(v.createdAt, u.createdAt), PickOpt(v.completedAt, u.completedAt), PickOpt(v.error, u.error),
           PickOpt(v.outputPath, u.outputPath), PickOpt(v.scenario, u.scenario), PickOpt(v.currentStep, u.currentStep),
           PickOpt(v.currentProgress, u.currentProgress), PickOpt(v.currentMessage, u.currentMessage))
  }

  /** An update changes the supplied fields to the supplied values and
      leaves every other field as it was. */
  lemma AssignFields(job: Job, u: Update)
    ensures var r := Assign(job, u);
      && (u.status.Some? ==> r.status == u.status.value) && (u.status.None? ==> r.status == job.status)
      && (u.outputPath.Some? ==> r.outputPath == u.outputPath) && (u.outputPath.None? ==> r.outputPath == job.outputPath)
      && (u.error.Some? ==> r.error == u.error) && (u.error.None? ==> r.error == job.error)
      && (u.id.None? ==> r.id == job.id) && (u.input.None? ==> r.input == job.input)
      && (u.provider.None? ==> r.provider == job.provider) && (u.createdAt.None? ==> r.createdAt == job.createdAt)
  {
  }

  /** An empty update is no change. */
  lemma AssignNothing(job: Job)
    ensures Assign(job, NoChange) == job
  {
  }

  /** Applying the same update twice is applying it once. */
  lemma AssignIdempotent(job: Job, u: Update)
    ensures Assign(Assign(job, u), u) == Assign(job, u)
  {
  }

  /** Two updates in a row are one combined update. */
  lemma AssignThen(job: Job, u: Update, v: Update)
    ensures Assign(Assign(job, u), v) == Assign(job, Then(u, v))
  {
  }

  datatype Backend = Redis | Files

  /** `getRedisKey(id)` for Redis, the file name of `getJobFilePath(id)`
      for the fallback. */
  function Key(backend: Backend, id: string): string {
    if backend == Redis then "job:" + id else id + ".json"
  }

  /** Different ids never share a record. */
  lemma KeyInjective(backend: Backend, a: string, b: string)
    requires Key(backend, a) == Key(backend, b)
    ensures a == b
  {
    if backend == Redis {
      assert a == Key(backend, a)[4..];
      assert b == Key(backend, b)[4..];
    } else {
      var ka, kb := Key(backend, a), Key(backend, b);
      assert a == ka[..|ka| - 5];
      assert b == kb[..|kb| - 5];
    }
  }

  /** Whether `getAllJobs` lists a key (`keys('job:*')`) or a file
      (`endsWith('.json')`). */
  predicate Listed(backend: Backend, key: string) {
    if backend == Redis then StartsWith(key, "job:") else EndsWith(key, ".json")
  }

  /** The id `getAllJobs` derives from a listed key: the first `job:` or
      `.json` removed. */
  function IdOf(backend: Backend, key: string): string {
    if backend == Redis then ReplaceFirst(key, "job:", "") else ReplaceFirst(key, ".json", "")
  }

  /** A listed Redis key is the key of the id derived from it. */
  lemma RedisIdRoundTrip(key: string)
    requires Listed(Redis, key)
    ensures Key(Redis, IdOf(Redis, key)) == key
  {
    ReplaceFirstPrefix(key, "job:");
    assert key == key[..4] + key[4..];
  }

  /** A listed file whose only `.json` is the suffix is the file of the id
      derived from it. */
  lemma FileIdRoundTrip(key: string)
    requires Listed(Files, key)
    requires forall i :: 0 <= i < |key| - 5 ==> !OccursAt(key, ".json", i)
    ensures Key(Files, IdOf(Files, key)) == key
  {
    FirstAtSuffix(key, ".json");
    assert key == key[..|key| - 5] + ".json";
  }

  /** `replace` of a suffix that occurs nowhere earlier removes that suffix. */
  lemma {:induction false} FirstAtSuffix(s: string, suffix: string)
    requires suffix != [] && EndsWith(s, suffix)
    requires forall i :: 0 <= i < |s| - |suffix| ==> !OccursAt(s, suffix, i)
    ensures ReplaceFirst(s, suffix, "") == s[..|s| - |suffix|]
    decreases |s|
  {
    if |s| == |suffix| {
      assert StartsWith(s, suffix);
    } else {
      assert !OccursAt(s, suffix, 0);
      assert !StartsWith(s, suffix) by {
        assert s[..|suffix|] == s[0..0 + |suffix|];
      }
      var t := s[1..];
      assert EndsWith(t, suffix) by {
        assert t[|t| - |suffix|..] == s[|s| - |suffix|..];
      }
      forall i | 0 <= i < |t| - |suffix| ensures !OccursAt(t, suffix, i) {
        assert t[i..i + |suffix|] == s[i + 1..i + 1 + |suffix|];
        assert !OccursAt(s, suffix, i + 1);
      }
      FirstAtSuffix(t, suffix);
      assert s[..|s| - |suffix|] == [s[0]] + t[..|t| - |suffix|];
    }
  }

  /** A file name with `.json` inside as well as at the end: the id derived
      from it names another file, so `getAllJobs` does not return that job. */
  lemma FileIdMismatch()
    ensures Listed(Files, "a.jsonb.json")
    ensures Key(Files, IdOf(Files, "a.jsonb.json")) == "ab.json.json"
  {
    var s := "a.jsonb.json";
    assert !StartsWith(s, ".json");
    assert StartsWith(s[1..], ".json");
    assert s[1..][5..] == "b.json";
  }

  /** `path.dirname` for a path with no trailing slash: everything before
      the last `/`, `/` for a file at the root, `.` without any `/`. */
  function DirName(p: string): string {
    var i := LastSlash(p, |p|);
    if i < 0 then "." else if i == 0 then "/" else p[..i]
  }

  /** The index of the last `/` before `n`, or -1. */
  function LastSlash(p: string, n: nat): (i: int)
    requires n <= |p|
    ensures -1 <= i < n
    ensures i >= 0 ==> p[i] == '/'
    ensures forall k :: i < k < n ==> p[k] != '/'
  {
    if n == 0 then -1 else if p[n - 1] == '/' then n - 1 else LastSlash(p, n - 1)
  }

  /** The directory of a file is the file's path up to its last `/`. */
  lemma DirNameOfFile(dir: string, name: string)
    requires dir != [] && forall k :: 0 <= k < |name| ==> name[k] != '/'
    ensures DirName(dir + "/" + name) == dir
  {
    var p := dir + "/" + name;
    var i := LastSlash(p, |p|);
    assert p[|dir|] == '/';
    assert forall k :: |dir| < k < |p| ==> p[k] == name[k - |dir| - 1];
    assert p[..i] == dir;
  }

  /** Node's `setTimeout` delay for `deleteAfterMinutes`: a delay below one
      millisecond or above 2^31 - 1 becomes one millisecond. */
  function TimerDelay(minutes: int): int {
    var ms := minutes * 60 * 1000;
    if ms < 1 || ms > 0x7FFF_FFFF then 1 else ms
  }

  /** The delay is always one Node accepts; a whole number of minutes
      up to 35791 is kept as it is, and anything longer fires at once. */
  lemma TimerDelayBounds(minutes: int)
    ensures 1 <= TimerDelay(minutes) <= 0x7FFF_FFFF
    ensures 1 <= minutes <= 35791 ==> TimerDelay(minutes) == minutes * 60000
    ensures minutes <= 0 || minutes >= 35792 ==> TimerDelay(minutes) == 1
  {
  }

  /** A pending or fired `setTimeout` handle. */
  datatype Timer = Timer(deadline: int, fired: bool)

  /** `error.message || 'Video generation failed'`. */
  function ErrorText(message: string): string {
    if message == "" then "Video generation failed" else message
  }

  function NewJob(id: string, input: string, provider: string, now: int): Job {
    Job(id, Pending, input, provider, now, None, None, None, None, None, None, None)
  }

  /** The jobs `getAllJobs` returns for a listing: every listed key whose
      job can be read, in listing order. */
  function Collected(backend: Backend, store: map<string, Job>, listing: seq<string>, readFails: nat -> bool, from: nat): seq<Job>
    requires from <= |listing|
    decreases |listing| - from
  {
    if from == |listing| then []
    else
      Found(backend, store, listing[from], readFails(from)) + Collected(backend, store, listing, readFails, from + 1)
  }

  /** What `getAllJobs` keeps of one listed key: the job, when the key is
      a job key and its job can be read. */
  function Found(backend: Backend, store: map<string, Job>, key: string, readFails: bool): seq<Job> {
    var k := Key(backend, IdOf(backend, key));
    if Listed(backend, key) && !readFails && k in store then [store[k]] else []
  }

  /** Every job `getAllJobs` returns is a stored record. */
  lemma {:induction false} CollectedStored(backend: Backend, store: map<string, Job>, listing: seq<string>, readFails: nat -> bool, from: nat)
    requires from <= |listing|
    ensures forall j :: j in Collected(backend, store, listing, readFails, from) ==> j in store.Values
    decreases |listing| - from
  {
    if from < |listing| {
      CollectedStored(backend, store, listing, readFails, from + 1);
    }
  }

  /** With Redis, a listing of the store's keys that reads without error
      returns the record of every `job:` key. */
  lemma {:induction false} CollectedComplete(store: map<string, Job>, listing: seq<string>, readFails: nat -> bool, from: nat, n: nat)
    requires from <= n < |listing|
    requires listing[n] in store && Listed(Redis, listing[n]) && !readFails(n)
    ensures store[listing[n]] in Collected(Redis, store, listing, readFails, from)
    decreases n - from
  {
    if from < n {
      CollectedComplete(store, listing, readFails, from + 1, n);
    } else {
      RedisIdRoundTrip(listing[n]);
    }
  }

  lemma Regroup<T>(a: seq<T>, b: seq<T>, c: seq<T>)
    ensures (a + b) + c == a + (b + c)
  {
  }

  class VideoJobManager {
    const backend: Backend
    /** The records, by Redis key or by file name. */
    var store: map<string, Job>
    /** `cleanupTimers`. */
    var timers: map<string, Timer>
    /** Output directories on disk. */
    var dirs: set<string>

    /** The manager starts over whatever the backend already holds. */
    constructor(backend: Backend, existing: map<string, Job>, dirs: set<string>)
      ensures this.backend == backend && store == existing && timers == map[] && this.dirs == dirs
    {
      this.backend := backend;
      store := existing;
      timers := map[];
      this.dirs := dirs;
    }

    /** The record stored for `id`, if any. */
    function Stored(id: string): Option<Job>
      reads this
    {
      var k := Key(backend, id);
      if k in store then Some(store[k]) else None
    }

    /** `createJob` with `id` standing for the generated
        `<Date.now()>-<random>`: a pending record with the input and
        provider, written over any record with that id.  `writeError` is
        what `setex` or `writeFileSync` throws, if anything; with Redis,
        `readBackError` is what the `get` reading the record back throws,
        after the record is stored. */
    method CreateJob(input: string, provider: string, id: string, now: int,
                     writeError: Option<string>, readBackError: Option<string>) returns (r: Outcome<string>)
      modifies this
      ensures writeError.Some? ==> r == Fail(writeError.value) && store == old(store)
      ensures writeError.None? ==> store == old(store)[Key(backend, id) := NewJob(id, input, provider, now)]
      ensures writeError.None? && backend == Redis && readBackError.Some? ==> r == Fail(readBackError.value)
      ensures writeError.None? && (backend == Files || readBackError.None?) ==> r == Ok(id)
      ensures timers == old(timers) && dirs == old(dirs)
    {
      if writeError.Some? {
        return Fail(writeError.value);
      }
      store := store[Key(backend, id) := NewJob(id, input, provider, now)];
      if backend == Redis && readBackError.Some? {
        return Fail(readBackError.value);
      }
      r := Ok(id);
    }

    /** `getJob`: absent for an unknown id and when the read throws. */
    method GetJob(id: string, readFails: bool) returns (job: Option<Job>)
      ensures job.Some? <==> !readFails && Key(backend, id) in store
      ensures job.Some? ==> job == Stored(id)
    {
      if readFails {
        return None;
      }
      var k := Key(backend, id);
      if k in store {
        job := Some(store[k]);
      } else {
        job := None;
      }
    }

    /** `updateJob`: the supplied fields overwrite those of a readable
        record; otherwise nothing happens.  `writeError` is what writing
        the updated record back throws, if anything: the store keeps the
        old record and the error is passed on to the caller. */
    method UpdateJob(id: string, u: Update, readFails: bool, writeError: Option<string>) returns (thrown: Option<string>)
      modifies this
      ensures var k := Key(backend, id);
        if !readFails && k in old(store) then
          thrown == writeError
          && store == (if writeError.None? then old(store)[k := Assign(old(store)[k], u)] else old(store))
        else thrown == None && store == old(store)
      ensures timers == old(timers) && dirs == old(dirs)
    {
      var job := GetJob(id, readFails);
      if job.Some? {
        if writeError.Some? {
          return writeError;
        }
        store := store[Key(backend, id) := Assign(job.value, u)];
      }
      thrown := None;
    }

    /** `scheduleCleanup`: any earlier timer for the id is cancelled and
        replaced by one that fires after the delay. */
    method ScheduleCleanup(id: string, deleteAfterMinutes: int, now: int)
      modifies this
      ensures timers == old(timers)[id := Timer(now + TimerDelay(deleteAfterMinutes), false)]
      ensures store == old(store) && dirs == old(dirs)
    {
      timers := timers[id := Timer(now + TimerDelay(deleteAfterMinutes), false)];
    }

    /** `cleanupJob`: for a readable record, the record and the timer
        entry go, and so does the directory of its output when the record
        has a non-empty output path; otherwise nothing changes. */
    method CleanupJob(id: string, readFails: bool)
      modifies this
      ensures var k := Key(backend, id);
        if readFails || k !in old(store) then
          store == old(store) && timers == old(timers) && dirs == old(dirs)
        else
          && store == old(store) - {k}
          && timers == old(timers) - {id}
          && dirs == (if Present(old(store)[k].outputPath) then old(dirs) - {DirName(old(store)[k].outputPath.value)} else old(dirs))
    {
      var job := GetJob(id, readFails);
      if job.None? {
        return;
      }
      if Present(job.value.outputPath) {
        dirs := dirs - {DirName(job.value.outputPath.value)};
      }
      store := store - {Key(backend, id)};
      timers := timers - {id};
    }

    /** A pending timer reaching its deadline: it is marked fired and runs
        `cleanupJob`.  A cancelled timer is no longer in the map, so it
        never fires. */
    method Fire(id: string, now: int, readFails: bool)
      requires id in timers && !timers[id].fired && timers[id].deadline <= now
      modifies this
      ensures var k := Key(backend, id);
        if readFails || k !in old(store) then
          store == old(store) && dirs == old(dirs) && timers == old(timers)[id := Timer(old(timers)[id].deadline, true)]
        else
          && store == old(store) - {k}
          && timers == old(timers) - {id}
          && dirs == (if Present(old(store)[k].outputPath) then old(dirs) - {DirName(old(store)[k].outputPath.value)} else old(dirs))
    {
      timers := timers[id := Timer(timers[id].deadline, true)];
      CleanupJob(id, readFails);
    }

    /** One turn of `getAllJobs`' loop: a job key's job, when it can be read. */
    method ReadListed(key: string, readFails: bool) returns (found: seq<Job>)
      ensures found == Found(backend, store, key, readFails)
    {
      found := [];
      if Listed(backend, key) {
        var job := GetJob(IdOf(backend, key), readFails);
        if job.Some? {
          found := [job.value];
        }
      }
    }

    /** `getAllJobs` over the backend's listing (`None` when listing
        throws or the jobs directory is missing); `readFails(i)` says
        whether reading the `i`-th listed job throws. */
    method GetAllJobs(listing: Option<seq<string>>, readFails: nat -> bool) returns (jobs: seq<Job>)
      ensures listing.None? ==> jobs == []
      ensures listing.Some? ==> jobs == Collected(backend, store, listing.value, readFails, 0)
    {
      if listing.None? {
        return [];
      }
      var keys := listing.value;
      jobs := [];
      var i := 0;
      while i < |keys|
        invariant 0 <= i <= |keys|
        invariant jobs + Collected(backend, store, keys, readFails, i) == Collected(backend, store, keys, readFails, 0)
      {
        var found := ReadListed(keys[i], readFails(i));
        Regroup(jobs, found, Collected(backend, store, keys, readFails, i + 1));
        jobs := jobs + found;
        i := i + 1;
      }
    }
  }

  /** How `generateVideo` ended: the video path, or the message of the
      error that reached the route's `catch`. */
  function FinalUpdate(result: Outcome<string>, now: int): Update {
    match result
    case Ok(path) => NoChange.(status := Some(Completed), completedAt := Some(now), outputPath := Some(path))
    case Fail(m) => NoChange.(status := Some(Error), error := Some(ErrorText(m)))
  }

  /** The record update the progress callback makes for one event. */
  function ProgressUpdate(e: Pipeline.ProgressEvent): Update {
    NoChange.(currentStep := Some(e.step), currentProgress := Some(e.progress), currentMessage := Some(e.message))
  }

  /** The record after the generate route's updates: the pending record,
      the scenario, `processing`, one progress update per event, then the
      final status. */
  function Lifecycle(job: Job, scenario: Option<Pipeline.Scenario>, events: seq<Pipeline.ProgressEvent>,
                     result: Outcome<string>, now: int): Job {
    var saved := if scenario.Some? then Assign(job, NoChange.(scenario := scenario)) else job;
    Assign(Progressed(Assign(saved, NoChange.(status := Some(Processing))), events), FinalUpdate(result, now))
  }

  function Progressed(job: Job, events: seq<Pipeline.ProgressEvent>): Job
    decreases |events|
  {
    if events == [] then job else Progressed(Assign(job, ProgressUpdate(events[0])), events[1..])
  }

  /** Progress updates touch only the three progress fields: the last
      event's values are left, and the status, input and output stay. */
  lemma {:induction false} ProgressedKeeps(job: Job, events: seq<Pipeline.ProgressEvent>)
    ensures var r := Progressed(job, events);
      && r.status == job.status && r.input == job.input && r.provider == job.provider && r.id == job.id
      && r.createdAt == job.createdAt && r.completedAt == job.completedAt
      && r.outputPath == job.outputPath && r.error == job.error && r.scenario == job.scenario
      && (events != [] ==> r.currentStep == Some(events[|events| - 1].step)
                           && r.currentMessage == Some(events[|events| - 1].message))
      && (events == [] ==> r == job)
    decreases |events|
  {
    if events != [] {
      ProgressedKeeps(Assign(job, ProgressUpdate(events[0])), events[1..]);
      if |events| > 1 {
        assert events[1..][|events[1..]| - 1] == events[|events| - 1];
      }
    }
  }

  /** A successful run ends `completed` with its video path; a failed one
      ends `error` with the message (or the default text) and no output.
      Input, provider and id are those the job was created with. */
  lemma LifecycleOutcome(id: string, input: string, provider: string, created: int, scenario: Option<Pipeline.Scenario>,
                         events: seq<Pipeline.ProgressEvent>, result: Outcome<string>, now: int)
    ensures var r := Lifecycle(NewJob(id, input, provider, created), scenario, events, result, now);
      && r.id == id && r.input == input && r.provider == provider && r.createdAt == created
      && r.scenario == scenario
      && (result.Ok? ==> r.status == Completed && r.outputPath == Some(result.value) && r.completedAt == Some(now))
      && (result.Fail? ==> r.status == Error && r.error == Some(ErrorText(result.message)) && r.outputPath == None)
  {
    var job := NewJob(id, input, provider, created);
    var saved := if scenario.Some? then Assign(job, NoChange.(scenario := scenario)) else job;
    ProgressedKeeps(Assign(saved, NoChange.(status := Some(Processing))), events);
  }

  /** The generate route's whole use of the manager for one job: POST
      creates it and saves the scenario, `generateVideo` marks it
      `processing`, the progress callback records every event of the run,
      and the end of the run either completes it and schedules its cleanup
      an hour later or records the error. */
  method GenerateLifecycle(m: VideoJobManager, id: string, input: string, provider: string,
                           scenario: Option<Pipeline.Scenario>, events: seq<Pipeline.ProgressEvent>,
                           result: Outcome<string>, created: int, now: int)
    modifies m
    ensures m.Stored(id) == Some(Lifecycle(NewJob(id, input, provider, created), scenario, events, result, now))
    ensures result.Ok? ==> m.timers == old(m.timers)[id := Timer(now + 3600000, false)]
    ensures result.Fail? ==> m.timers == old(m.timers)
    ensures m.dirs == old(m.dirs)
  {
    var created' := m.CreateJob(input, provider, id, created, None, None);
    var jobId := created'.value;
    ghost var job := NewJob(id, input, provider, created);
    if scenario.Some? {
      var _ := m.UpdateJob(jobId, NoChange.(scenario := scenario), false, None);
      job := Assign(job, NoChange.(scenario := scenario));
    }
    var _ := m.UpdateJob(jobId, NoChange.(status := Some(Processing)), false, None);
    job := Assign(job, NoChange.(status := Some(Processing)));
    for i := 0 to |events|
      invariant m.Stored(id) == Some(Progressed(job, events[..i]))
      invariant m.timers == old(m.timers) && m.dirs == old(m.dirs)
    {
      var _ := m.UpdateJob(jobId, ProgressUpdate(events[i]), false, None);
      ProgressedSnoc(job, events[..i], events[i]);
      assert events[..i + 1] == events[..i] + [events[i]];
    }
    assert events[..|events|] == events;
    var _ := m.UpdateJob(jobId, FinalUpdate(result, now), false, None);
    if result.Ok? {
      m.ScheduleCleanup(jobId, 60, now);
    }
  }

  /** A job just created reads back as the pending record with the id,
      input and provider it was created with. */
  method CreateThenGet(m: VideoJobManager, input: string, provider: string, id: string, now: int)
    returns (job: Option<Job>)
    modifies m
    ensures job == Some(NewJob(id, input, provider, now))
    ensures job.value.id == id && job.value.status == Pending
    ensures job.value.input == input && job.value.provider == provider
  {
    var r := m.CreateJob(input, provider, id, now, None, None);
    job := m.GetJob(r.value, false);
  }

  lemma {:induction false} ProgressedSnoc(job: Job, events: seq<Pipeline.ProgressEvent>, e: Pipeline.ProgressEvent)
    ensures Progressed(job, events + [e]) == Assign(Progressed(job, events), ProgressUpdate(e))
    decreases |events|
  {
    if events != [] {
      assert (events + [e])[1..] == events[1..] + [e];
      ProgressedSnoc(Assign(job, ProgressUpdate(events[0])), events[1..], e);
    } else {
      assert [e][1..] == [];
    }
  }
}
