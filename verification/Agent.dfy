/** The client's job queue and its staged generations: a new generation is
    published before the old ones are collected, and a crash may come anywhere. */
module Agent {
  import opened Types
  import opened Content

  datatype JobState = Discovered | Preparing | Ready | Uploading | RetryWait | Complete | Failed

  /** `prepared_json`: a generation and the content it was split from. */
  datatype Staged = Staged(generation: Id, size: nat, blake3: string, parts: seq<PartSpec>)

  datatype Job = Job(
    asset: string, resource: string, file: string, modified: int, size: nat, removeSource: bool,
    state: JobState, prepared: Option<Staged>, upload: Option<Id>, retries: nat, nextRetry: int)

  type Jobs = map<Id, Job>

  /** The staging directory: for each generation of each job, its part files. */
  type Staging = map<(Id, Id), map<nat, Bytes>>

  /** What happens at each point where the process may fail or die. */
  datatype Luck = Goes | Breaks | Dies

  datatype AgentError = NotFound | SourceMissing | BadContent | CannotCollect

  // ----- what must hold between any two steps ---------------------------------------------

  /** The generation is on disk, and its parts make up the recorded content. */
  ghost predicate Intact(cfg: Config, staging: Staging, j: Id, p: Staged, partSize: nat)
    requires 0 < partSize
  {
    (j, p.generation) in staging
    && exists content ::
         PreparedFrom(cfg, p, content, partSize) && HoldsParts(staging[(j, p.generation)], content, partSize)
  }

  ghost predicate PreparedFrom(cfg: Config, p: Staged, content: Bytes, partSize: nat)
    requires 0 < partSize
  {
    p.size == |content| && p.blake3 == cfg.hash(content) && p.parts == Manifest(cfg, Chunks(content, partSize))
  }

  ghost predicate HoldsParts(files: map<nat, Bytes>, content: Bytes, partSize: nat)
    requires 0 < partSize
  {
    var chunks := Chunks(content, partSize);
    forall i :: 0 <= i < |chunks| ==> i in files && files[i] == chunks[i]
  }

  ghost predicate JobOk(cfg: Config, staging: Staging, partSize: nat, j: Id, job: Job)
    requires 0 < partSize
  {
    && (job.state == Ready ==> job.prepared.Some?)
    && (job.state != Complete && job.prepared.Some? ==> Intact(cfg, staging, j, job.prepared.value, partSize))
  }

  ghost predicate JobsOk(cfg: Config, jobs: Jobs, staging: Staging, partSize: nat)
    requires 0 < partSize
  {
    forall j :: j in jobs ==> JobOk(cfg, staging, partSize, j, jobs[j])
  }

  ghost predicate UniqueSources(jobs: Jobs) {
    forall i, j :: i in jobs && j in jobs && jobs[i].asset == jobs[j].asset && jobs[i].resource == jobs[j].resource
      ==> i == j
  }

  /** Every part of an intact generation is there, and together they are
      exactly the content the server will be told of. */
  lemma IntactIsTheContent(cfg: Config, staging: Staging, j: Id, p: Staged, partSize: nat) returns (content: Bytes)
    requires 0 < partSize && Intact(cfg, staging, j, p, partSize)
    ensures var files := staging[(j, p.generation)];
      && (forall i :: 0 <= i < |p.parts| ==> i in files && p.parts[i] == SpecOf(cfg, i, files[i]))
      && Concat(seq(|p.parts|, i requires 0 <= i < |p.parts| && i in files => files[i])) == content
      && |content| == p.size && cfg.hash(content) == p.blake3
  {
    content :| PreparedFrom(cfg, p, content, partSize) && HoldsParts(staging[(j, p.generation)], content, partSize);
    var files, chunks := staging[(j, p.generation)], Chunks(content, partSize);
    assert forall i :: 0 <= i < |p.parts| ==> i in files && files[i] == chunks[i];
    ChunksJoin(content, partSize);
    assert seq(|p.parts|, i requires 0 <= i < |p.parts| && i in files => files[i]) == chunks;
  }

  /** What `prepare_file` left on disk, under the row it calls for, is intact. */
  lemma StagedIsIntact(cfg: Config, staging: Staging, j: Id, p: Staged, content: Bytes, partSize: nat)
    requires 0 < partSize && (j, p.generation) in staging
    requires p.size == |content| && p.blake3 == cfg.hash(content) && p.parts == Manifest(cfg, Chunks(content, partSize))
    requires forall i :: 0 <= i < |p.parts| ==>
      i in staging[(j, p.generation)] && staging[(j, p.generation)][i] == Chunks(content, partSize)[i]
    ensures PreparedFrom(cfg, p, content, partSize) && Intact(cfg, staging, j, p, partSize)
  {
    assert PreparedFrom(cfg, p, content, partSize) && HoldsParts(staging[(j, p.generation)], content, partSize);
  }

  lemma StillIntact(cfg: Config, jobs: Jobs, staging: Staging, partSize: nat, j: Id)
    requires 0 < partSize && JobsOk(cfg, jobs, staging, partSize) && j in jobs
    requires jobs[j].state != Complete && jobs[j].prepared.Some?
    ensures Intact(cfg, staging, j, jobs[j].prepared.value, partSize)
  {
    assert JobOk(cfg, staging, partSize, j, jobs[j]);
  }

  /** Only the generation a job names matters to it. */
  lemma OtherDirectories(cfg: Config, jobs: Jobs, staging: Staging, staging': Staging, partSize: nat)
    requires 0 < partSize && JobsOk(cfg, jobs, staging, partSize)
    requires forall j :: j in jobs && jobs[j].state != Complete && jobs[j].prepared.Some? ==>
      var key := (j, jobs[j].prepared.value.generation);
      key in staging ==> key in staging' && staging'[key] == staging[key]
    ensures JobsOk(cfg, jobs, staging', partSize)
  {
    forall j | j in jobs ensures JobOk(cfg, staging', partSize, j, jobs[j]) {
      assert JobOk(cfg, staging, partSize, j, jobs[j]);
    }
  }

  lemma IntactIsThere(cfg: Config, staging: Staging, j: Id, p: Staged, partSize: nat)
    requires 0 < partSize && Intact(cfg, staging, j, p, partSize)
    ensures (j, p.generation) in staging
  {
  }

  /** A generation that has lost one of its parts is not intact. */
  lemma LostPart(cfg: Config, staging: Staging, j: Id, p: Staged, partSize: nat, i: nat)
    requires 0 < partSize && i < |p.parts| && ((j, p.generation) in staging ==> i !in staging[(j, p.generation)])
    ensures !Intact(cfg, staging, j, p, partSize)
  {
    if Intact(cfg, staging, j, p, partSize) {
      var content := IntactIsTheContent(cfg, staging, j, p, partSize);
      assert false;
    }
  }

  lemma IntactHasParts(cfg: Config, staging: Staging, j: Id, p: Staged, partSize: nat)
    requires 0 < partSize && Intact(cfg, staging, j, p, partSize)
    ensures p.parts != [] && staging[(j, p.generation)] != map[]
  {
    var content :| PreparedFrom(cfg, p, content, partSize) && HoldsParts(staging[(j, p.generation)], content, partSize);
    ChunksJoin(content, partSize);
    assert 0 in staging[(j, p.generation)];
  }

  /** A generation with the same files is as intact as before. */
  lemma SameFilesSameIntact(cfg: Config, staging: Staging, staging': Staging, j: Id, p: Staged, partSize: nat)
    requires 0 < partSize && (j, p.generation) in staging && (j, p.generation) in staging'
    requires staging'[(j, p.generation)] == staging[(j, p.generation)]
    ensures Intact(cfg, staging', j, p, partSize) <==> Intact(cfg, staging, j, p, partSize)
  {
  }

  // ----- rows ---------------------------------------------------------------------------------

  /** What opening the database makes of a row left by a dead process. */
  function Reopened(job: Job): Job {
    if job.state in {Preparing, Uploading} && job.prepared.Some? then job.(state := Ready, upload := None)
    else if job.state == Preparing then job.(state := Discovered)
    else job
  }

  /** What becomes of a row when the agent is opened: work that was staged is
      ready to be sent again, work that was not starts again, and nothing else
      changes; so no job is taken for complete. */
  ghost predicate Restarts(job: Job, job': Job) {
    match job.state
    case Preparing =>
      if job.prepared.Some? then job'.state == Ready && job'.upload == None && SameWork(job, job')
      else job'.state == Discovered && job'.upload == job.upload && SameWork(job, job')
    case Uploading =>
      if job.prepared.Some? then job'.state == Ready && job'.upload == None && SameWork(job, job') else job' == job
    case _ => job' == job
  }

  /** The same but for its state and its upload. */
  ghost predicate SameWork(job: Job, job': Job) {
    job' == job.(state := job'.state, upload := job'.upload)
  }

  lemma ReopenedRestarts(job: Job)
    ensures Restarts(job, Reopened(job))
  {
  }

  function BackoffMs(retries: nat): nat {
    var exponent := if retries < 10 then retries else 10;
    var delay := 2000 * Pow2(exponent);
    if delay < 3_600_000 then delay else 3_600_000
  }

  function Pow2(n: nat): nat {
    if n == 0 then 1 else 2 * Pow2(n - 1)
  }

  /** Failing a job does not look at its state. */
  lemma FailsTheSame(jobs: Jobs, j: Id, other: Job, now: int, retryable: bool)
    requires j in jobs && other == jobs[j].(state := other.state)
    ensures jobs[j := other][j := FailedJob(other, now, retryable)] == jobs[j := FailedJob(jobs[j], now, retryable)]
  {
  }

  lemma FailsBack(before: Jobs, jobs: Jobs, j: Id, now: int)
    requires j in before && jobs.Keys == before.Keys && forall k :: k in jobs && k != j ==> jobs[k] == before[k]
    requires jobs[j] == before[j].(state := jobs[j].state, prepared := jobs[j].prepared)
    ensures jobs[j := FailedJob(jobs[j], now, true)]
         == before[j := FailedJob(before[j], now, true).(prepared := jobs[j].prepared)]
  {
  }

  class Agent {
    const cfg: Config
    const partSize: nat
    const luck: nat -> Luck
    var jobs: Jobs
    var staging: Staging
    var sources: map<string, Bytes>
    var tick: nat

    ghost predicate Valid()
      reads this
    {
      0 < partSize && UniqueSources(jobs) && JobsOk(cfg, jobs, staging, partSize)
    }

    constructor (cfg: Config, partSize: nat, luck: nat -> Luck, sources: map<string, Bytes>)
      requires 0 < partSize
      ensures Valid() && jobs == map[] && staging == map[] && this.sources == sources
      ensures this.cfg == cfg && this.partSize == partSize && this.luck == luck
    {
      this.cfg, this.partSize, this.luck := cfg, partSize, luck;
      this.sources := sources;
      jobs, staging, tick := map[], map[], 0;
    }

    method Chance() returns (l: Luck)
      modifies this`tick
      ensures l == luck(old(tick)) && tick == old(tick) + 1
    {
      l := luck(tick);
      tick := tick + 1;
    }

    /** `Agent::open` on what a previous process left behind. */
    method Reopen()
      requires Valid()
      modifies this`jobs
      ensures Valid() && jobs == map j | j in old(jobs) :: Reopened(old(jobs)[j])
      ensures forall j :: j in jobs ==> jobs[j].state != Preparing
      ensures forall j :: j in old(jobs) ==> j in jobs && Restarts(old(jobs)[j], jobs[j])
    {
      hide Intact, Restarts;
      jobs := map j | j in jobs :: Reopened(jobs[j]);
      forall j | j in jobs ensures JobOk(cfg, staging, partSize, j, jobs[j]) && Restarts(old(jobs)[j], jobs[j]) {
        assert JobOk(cfg, staging, partSize, j, old(jobs)[j]);
        ReopenedRestarts(old(jobs)[j]);
      }
    }

    /** `enqueue`: a resource already backed up unchanged is left alone; any
        other starts again from discovery. */
    method Enqueue(asset: string, resource: string, file: string, modified: int, size: nat, removeSource: bool,
                   newId: Id)
      returns (id: Id)
      requires Valid() && newId !in jobs
      modifies this`jobs
      ensures Valid() && id in jobs && jobs[id].asset == asset && jobs[id].resource == resource
      ensures forall j :: j != id ==> (j in jobs <==> j in old(jobs)) && (j in jobs ==> jobs[j] == old(jobs)[j])
      ensures (exists j :: j in old(jobs) && old(jobs)[j].asset == asset && old(jobs)[j].resource == resource)
         <==> id in old(jobs)
      ensures if id in old(jobs) && old(jobs)[id].state == Complete && old(jobs)[id].modified == modified
                 && old(jobs)[id].size == size
              then jobs == old(jobs)
              else jobs[id] == Job(asset, resource, file, modified, size, removeSource, Discovered, None, None, 0, 0)
    {
      if j :| j in jobs && jobs[j].asset == asset && jobs[j].resource == resource {
        id := j;
        if jobs[id].modified == modified && jobs[id].size == size && jobs[id].state == Complete {
          return;
        }
      } else {
        id := newId;
      }
      ghost var before := jobs;
      jobs := jobs[id := Job(asset, resource, file, modified, size, removeSource, Discovered, None, None, 0, 0)];
      forall j | j in jobs ensures JobOk(cfg, staging, partSize, j, jobs[j]) {
        assert j != id ==> JobOk(cfg, staging, partSize, j, before[j]);
      }
    }

    /** Write the parts of a new generation; a process that dies leaves some of
        them, in any condition. */
    method WriteParts(j: Id, generation: Id, disk: map<nat, Bytes>, n: nat) returns (l: Luck)
      requires Valid() && (j, generation) !in staging && forall i: nat :: i in disk <==> i < n
      modifies this`staging, this`tick
      ensures Valid() && old(tick) <= tick
      ensures forall key: (Id, Id) :: key != (j, generation) ==>
        (key in staging <==> key in old(staging)) && (key in staging ==> staging[key] == old(staging)[key])
      ensures l == Goes ==> (j, generation) in staging && staging[(j, generation)] == disk
    {
      ghost var before := staging;
      staging := staging[(j, generation) := map[]];
      for i := 0 to n
        invariant (j, generation) in staging && old(tick) <= tick
        invariant forall k: nat :: k in staging[(j, generation)] <==> k < i
        invariant forall k: nat :: k < i ==> staging[(j, generation)][k] == disk[k]
        invariant forall key: (Id, Id) :: key != (j, generation) ==>
          (key in staging <==> key in before) && (key in staging ==> staging[key] == before[key])
      {
        l := Chance();
        if l != Goes {
          var junk: map<nat, Bytes> := *;
          staging := staging[(j, generation) := junk];
          OtherDirectories(cfg, jobs, before, staging, partSize);
          return;
        }
        staging := staging[(j, generation) := staging[(j, generation)][i := disk[i]]];
      }
      OtherDirectories(cfg, jobs, before, staging, partSize);
      assert staging[(j, generation)] == disk;
      l := Goes;
    }

    /** `gc_staging_generations`: remove every other generation of the job. */
    method CollectOthers(j: Id, active: Id) returns (l: Luck)
      requires Valid() && j in jobs && jobs[j].prepared.Some? && jobs[j].prepared.value.generation == active
      modifies this`staging, this`tick
      ensures Valid() && old(tick) <= tick
      ensures forall key: (Id, Id) :: key.0 != j || key.1 == active ==>
        (key in staging <==> key in old(staging)) && (key in staging ==> staging[key] == old(staging)[key])
      ensures forall key: (Id, Id) :: key in staging ==> key in old(staging)
      ensures l == Goes ==> forall g :: (j, g) in staging ==> g == active
    {
      ghost var before := staging;
      var others := set key | key in staging && key.0 == j && key.1 != active;
      while others != {}
        invariant old(tick) <= tick && forall key: (Id, Id) :: key in others ==> key.0 == j && key.1 != active
        invariant forall key: (Id, Id) :: key.0 != j || key.1 == active ==>
          (key in staging <==> key in before) && (key in staging ==> staging[key] == before[key])
        invariant forall key: (Id, Id) :: key in staging ==> key in before
        invariant forall key: (Id, Id) :: key in staging && key.0 == j && key.1 != active ==> key in others
        decreases others
      {
        var key :| key in others;
        l := Chance();
        if l != Goes {
          if l == Dies && key in staging {
            var left: map<nat, Bytes> := *;
            staging := staging[key := left];
          }
          OtherDirectories(cfg, jobs, before, staging, partSize);
          return;
        }
        others := others - {key};
        staging := staging - {key};
      }
      OtherDirectories(cfg, jobs, before, staging, partSize);
      l := Goes;
    }

    /** `prepare_job`: stage a new generation, publish it in the job's row, and
        only then collect the older ones. None means that the process died. */
    method PrepareJob(j: Id, generation: Id) returns (r: Option<Result<Staged, AgentError>>)
      requires Valid() && j in jobs && jobs[j].state == Preparing && (j, generation) !in staging
      modifies this
      ensures Valid() && j in jobs && jobs.Keys == old(jobs).Keys
      ensures forall k :: k in jobs && k != j ==> jobs[k] == old(jobs)[k]
      ensures forall key: (Id, Id) :: key.0 != j ==>
        (key in staging <==> key in old(staging)) && (key in staging ==> staging[key] == old(staging)[key])
      ensures jobs[j] == old(jobs)[j]
        || (jobs[j] == old(jobs)[j].(state := Ready, prepared := jobs[j].prepared)
            && Published(jobs[j].prepared, generation, old(sources), old(jobs)[j].file))
      ensures r.Some? && r.value.Ok? ==>
        jobs[j].state == Ready && jobs[j].prepared == Some(r.value.value)
        && forall g :: (j, g) in staging <==> g == generation
      ensures jobs[j] == old(jobs)[j] || !old(jobs)[j].removeSource ==> sources == old(sources)
      ensures r.Some? && r.value.Ok? && old(jobs)[j].removeSource ==>
        old(tick) < tick
        && sources == if luck(tick - 1) == Goes then old(sources) - {old(jobs)[j].file} else old(sources)
    {
      hide Intact, PreparedFrom, HoldsParts, Manifest, Chunks, JobsOk, UniqueSources, Cleaned, SomeGoes;
      var job := jobs[j];
      if job.file !in sources {
        return Some(Err(SourceMissing));
      }
      var content := sources[job.file];
      var split, disk := PrepareFile(cfg, content, |content|, partSize);
      if split.Err? {
        return Some(Err(BadContent));
      }
      var p := Staged(generation, split.value.size, split.value.blake3, split.value.parts);
      var l := WriteParts(j, generation, disk, |p.parts|);
      if l != Goes {
        return if l == Dies then None else Some(Err(SourceMissing));
      }
      l := Chance();
      if l != Goes {
        return if l == Dies then None else Some(Err(SourceMissing));
      }
      StagedIsIntact(cfg, staging, j, p, content, partSize);
      Publish(j, job, p);
      r := Settle(j, p);
    }

    /** The end of `prepare_job`, once the generation is published. */
    method Settle(j: Id, p: Staged) returns (r: Option<Result<Staged, AgentError>>)
      requires Valid() && j in jobs && jobs[j].state == Ready && jobs[j].prepared == Some(p)
      modifies this`staging, this`sources, this`tick
      ensures Valid()
      ensures forall key: (Id, Id) :: key.0 != j ==>
        (key in staging <==> key in old(staging)) && (key in staging ==> staging[key] == old(staging)[key])
      ensures r.Some? && r.value.Ok? ==> r.value.value == p && forall g :: (j, g) in staging <==> g == p.generation
      ensures !jobs[j].removeSource ==> sources == old(sources)
      ensures r.Some? && r.value.Ok? && jobs[j].removeSource ==>
        old(tick) < tick
        && sources == if luck(tick - 1) == Goes then old(sources) - {jobs[j].file} else old(sources)
      ensures old(tick) <= tick
    {
      hide Intact, JobsOk, UniqueSources;
      var l := CollectOthers(j, p.generation);
      if l != Goes {
        return if l == Dies then None else Some(Err(CannotCollect));
      }
      StillIntact(cfg, jobs, staging, partSize, j);
      assert (j, p.generation) in staging by { IntactIsThere(cfg, staging, j, p, partSize); }
      if jobs[j].removeSource {
        l := RemoveSource(jobs[j].file);
        if l == Dies {
          return None;
        }
      }
      r := Some(Ok(p));
    }

    /** The source goes, if it can be removed. */
    method RemoveSource(file: string) returns (l: Luck)
      modifies this`sources, this`tick
      ensures tick == old(tick) + 1 && l == luck(old(tick))
      ensures sources == if l == Goes then old(sources) - {file} else old(sources)
    {
      l := Chance();
      if l == Goes {
        sources := sources - {file};
      }
    }

    ghost predicate Published(p: Option<Staged>, generation: Id, before: map<string, Bytes>, file: string)
      reads this
      requires 0 < partSize
    {
      p.Some? && p.value.generation == generation && file in before
      && PreparedFrom(cfg, p.value, before[file], partSize)
    }

    /** The row update that makes a staged generation the job's own. */
    method Publish(j: Id, job: Job, p: Staged)
      requires Valid() && j in jobs && jobs[j] == job && Intact(cfg, staging, j, p, partSize)
      modifies this`jobs
      ensures Valid() && jobs == old(jobs)[j := job.(state := Ready, prepared := Some(p))]
    {
      ghost var before := jobs;
      jobs := jobs[j := job.(state := Ready, prepared := Some(p))];
      forall k | k in jobs ensures JobOk(cfg, staging, partSize, k, jobs[k]) {
        assert k != j ==> JobOk(cfg, staging, partSize, k, before[k]);
      }
    }

    /** The UPDATE statements of `mark_*` and of `next_prepared`. */
    method SetState(j: Id, job: Job)
      requires Valid() && j in jobs && job.state != Ready && job.prepared == jobs[j].prepared
      requires job.asset == jobs[j].asset && job.resource == jobs[j].resource
      modifies this`jobs
      ensures jobs == old(jobs)[j := job]
      ensures Valid() <==>
        (job.state != Complete && old(jobs)[j].state == Complete && job.prepared.Some? ==>
           Intact(cfg, staging, j, job.prepared.value, partSize))
    {
      ghost var before := jobs;
      jobs := jobs[j := job];
      assert JobOk(cfg, staging, partSize, j, before[j]);
      forall k | k in jobs && k != j ensures JobOk(cfg, staging, partSize, k, jobs[k]) {
        assert JobOk(cfg, staging, partSize, k, before[k]);
      }
      if Valid() {
        assert JobOk(cfg, staging, partSize, j, jobs[j]);
      }
    }

    /** The staged generations of completed jobs are gone. */
    ghost predicate Cleaned()
      reads this
      requires 0 < partSize
    {
      forall j :: j in jobs && jobs[j].state == Complete && jobs[j].prepared.Some? ==>
        !Intact(cfg, staging, j, jobs[j].prepared.value, partSize)
    }

    /** This job is complete, and was staged. */
    ghost predicate Finished(j: Id)
      reads this
    {
      j in jobs && jobs[j].state == Complete && jobs[j].prepared.Some?
    }

    /** Some removal went through between two ticks. */
    ghost predicate SomeGoes(from: nat, to: nat) {
      exists k :: from <= k < to && luck(k) == Goes
    }

    /** `mark_upload`. Of a job that is not complete it keeps the staging promise;
        reviving a complete one breaks it exactly when its generation is gone,
        and so, where completed jobs are cleaned up, always. */
    method MarkUpload(j: Id, upload: Id) returns (r: Result<(), AgentError>)
      requires Valid()
      modifies this`jobs
      ensures r.Ok? <==> j in old(jobs)
      ensures jobs == if r.Ok? then old(jobs)[j := old(jobs)[j].(state := Uploading, upload := Some(upload))]
                      else old(jobs)
      ensures Valid() <==>
        (j in old(jobs) && old(jobs)[j].state == Complete && old(jobs)[j].prepared.Some? ==>
           Intact(cfg, staging, j, old(jobs)[j].prepared.value, partSize))
      ensures old(Cleaned()) ==> (Valid() <==> !old(Finished(j)))
      ensures !old(Finished(j)) ==> Valid()
    {
      if j !in jobs {
        return Err(NotFound);
      }
      SetState(j, jobs[j].(state := Uploading, upload := Some(upload)));
      return Ok(());
    }

    /** `mark_failed`, with the same proviso. */
    method MarkFailed(j: Id, now: int, retryable: bool) returns (r: Result<(), AgentError>)
      requires Valid()
      modifies this`jobs
      ensures r.Ok? <==> j in old(jobs)
      ensures jobs == if r.Ok? then old(jobs)[j := FailedJob(old(jobs)[j], now, retryable)] else old(jobs)
      ensures r.Ok? ==>
        jobs[j].state == (if retryable then RetryWait else Failed) && jobs[j].retries == old(jobs)[j].retries + 1
        && jobs[j].nextRetry == now + BackoffMs(old(jobs)[j].retries)
      ensures Valid() <==>
        (j in old(jobs) && old(jobs)[j].state == Complete && old(jobs)[j].prepared.Some? ==>
           Intact(cfg, staging, j, old(jobs)[j].prepared.value, partSize))
      ensures old(Cleaned()) ==> (Valid() <==> !old(Finished(j)))
      ensures !old(Finished(j)) ==> Valid()
    {
      if j !in jobs {
        return Err(NotFound);
      }
      SetState(j, FailedJob(jobs[j], now, retryable));
      return Ok(());
    }

    /** `mark_complete`: the row first, then the parts and their directory, as
        far as the process gets. One removal that goes through is enough for the
        generation to be gone. */
    method MarkComplete(j: Id) returns (r: Result<(), AgentError>)
      requires Valid()
      modifies this
      ensures Valid() && sources == old(sources)
      ensures r.Ok? <==> j in old(jobs)
      ensures jobs == if r.Ok? then old(jobs)[j := old(jobs)[j].(state := Complete)] else old(jobs)
      ensures forall key: (Id, Id) ::
        key.0 != j || (r.Ok? && (old(jobs)[j].prepared.None? || old(jobs)[j].prepared.value.generation != key.1)) ==>
        (key in staging <==> key in old(staging)) && (key in staging ==> staging[key] == old(staging)[key])
      ensures r.Ok? && old(jobs)[j].prepared.Some? ==>
        var p := old(jobs)[j].prepared.value;
        && (Intact(cfg, staging, j, p, partSize)
            <==> old(Intact(cfg, staging, j, p, partSize)) && !SomeGoes(old(tick), tick))
        && ((forall k :: old(tick) <= k < tick ==> luck(k) == Goes) && (j, p.generation) in staging ==>
              forall i: nat :: i < |p.parts| ==> i !in staging[(j, p.generation)])
    {
      if j !in jobs {
        return Err(NotFound);
      }
      SetState(j, jobs[j].(state := Complete));
      if jobs[j].prepared.Some? && (j, jobs[j].prepared.value.generation) in staging {
        RemoveParts(j, jobs[j].prepared.value);
      }
      return Ok(());
    }

    /** Remove the parts one by one, passing over failures, and then the
        directory if that left it empty. */
    method RemoveParts(j: Id, p: Staged)
      requires Valid() && j in jobs && jobs[j].state == Complete && (j, p.generation) in staging
      modifies this`staging, this`tick
      ensures Valid()
      ensures forall k: (Id, Id) :: k != (j, p.generation) ==>
        (k in staging <==> k in old(staging)) && (k in staging ==> staging[k] == old(staging)[k])
      ensures Intact(cfg, staging, j, p, partSize)
           <==> old(Intact(cfg, staging, j, p, partSize)) && !SomeGoes(old(tick), tick)
      ensures (forall k :: old(tick) <= k < tick ==> luck(k) == Goes) && (j, p.generation) in staging ==>
        forall i: nat :: i < |p.parts| ==> i !in staging[(j, p.generation)]
    {
      hide Intact;
      ghost var before := staging;
      var key := (j, p.generation);
      var died := false;
      var i := 0;
      while i < |p.parts| && !died
        invariant i <= |p.parts| && key in staging && old(tick) <= tick
        invariant forall k: (Id, Id) :: k != key ==>
          (k in staging <==> k in before) && (k in staging ==> staging[k] == before[k])
        invariant SomeGoes(old(tick), tick) ==> exists i: nat :: i < |p.parts| && i !in staging[key]
        invariant !SomeGoes(old(tick), tick) ==> staging[key] == before[key]
        invariant (forall k :: old(tick) <= k < tick ==> luck(k) == Goes) ==>
          !died && forall m: nat :: m < i ==> m !in staging[key]
        invariant died ==> exists k :: old(tick) <= k < tick && luck(k) == Dies
        decreases |p.parts| - i, !died
      {
        ghost var now := tick;
        var l := Chance();
        assert luck(now) == l;
        assert SomeGoes(old(tick), tick) <==> SomeGoes(old(tick), now) || l == Goes;
        if l == Dies {
          died := true;
        } else {
          if l == Goes {
            staging := staging[key := staging[key] - {i}];
            assert i !in staging[key];
          }
          i := i + 1;
        }
      }
      if SomeGoes(old(tick), tick) {
        var lost: nat :| lost < |p.parts| && lost !in staging[key];
        LostPart(cfg, staging, j, p, partSize, lost);
        EmptyIsNotIntact(j, p, staging - {key});
      } else {
        SameFilesSameIntact(cfg, before, staging, j, p, partSize);
      }
      if !died && staging[key] == map[] {
        if Intact(cfg, staging, j, p, partSize) {
          IntactHasParts(cfg, staging, j, p, partSize);
        }
        staging := staging - {key};
        EmptyIsNotIntact(j, p, staging);
      }
      OtherDirectories(cfg, jobs, before, staging, partSize);
    }

    lemma EmptyIsNotIntact(j: Id, p: Staged, staging: Staging)
      requires 0 < partSize && (j, p.generation) !in staging
      ensures !Intact(cfg, staging, j, p, partSize)
    {
    }

    /** A failure reported late: of a staged job that was completed first, even
        one removal gone through leaves a row that promises parts it no longer
        has. */
    method CompleteThenFail(j: Id, now: int, retryable: bool) returns (r: Result<(), AgentError>)
      requires Valid() && j in jobs && jobs[j].state != Complete && jobs[j].prepared.Some?
      modifies this
      ensures r.Ok? && jobs == old(jobs)[j := FailedJob(old(jobs)[j], now, retryable)]
      ensures Valid() <==> !SomeGoes(old(tick), tick)
    {
      StillIntact(cfg, jobs, staging, partSize, j);
      assert 0 < partSize;
      hide Valid, Intact, Cleaned, SomeGoes, BackoffMs, FailedJob, Finished;
      FailsTheSame(jobs, j, jobs[j].(state := Complete), now, retryable);
      r := MarkComplete(j);
      r := MarkFailed(j, now, retryable);
    }

    /** What a failed preparation leaves: the job waits to be tried again, with
        its old generation or the new one. */
    ghost predicate Postponed(before: Jobs, files: map<string, Bytes>, j: Id, now: int, generation: Id)
      reads this
      requires 0 < partSize
    {
      j in before && Due(before[j], now) && j in jobs
      && jobs == before[j := FailedJob(before[j], now, true).(prepared := jobs[j].prepared)]
      && (jobs[j].prepared == before[j].prepared || Published(jobs[j].prepared, generation, files, before[j].file))
    }

    method Postpone(j: Id, now: int, ghost before: Jobs)
      requires Valid() && j in before && jobs.Keys == before.Keys && !Finished(j)
      requires forall k :: k in jobs && k != j ==> jobs[k] == before[k]
      requires jobs[j] == before[j].(state := jobs[j].state, prepared := jobs[j].prepared)
      modifies this`jobs
      ensures Valid() && jobs == before[j := FailedJob(before[j], now, true).(prepared := old(jobs)[j].prepared)]
    {
      FailsBack(before, jobs, j, now);
      var marked := MarkFailed(j, now, true);
    }

    /** The second half of `next_prepared`: prepare this due job. */
    method PrepareDue(j: Id, now: int, generation: Id)
      returns (r: Option<Result<Option<(Id, Staged)>, AgentError>>)
      requires Valid() && j in jobs && Due(jobs[j], now) && (j, generation) !in staging
      modifies this
      ensures Valid() && jobs.Keys == old(jobs).Keys
      ensures forall k :: k in jobs && k != j ==> jobs[k] == old(jobs)[k]
      ensures r.Some? && r.value.Ok? ==> r.value.value.Some? && r.value.value.value.0 == j
      ensures r.Some? && r.value.Ok? ==>
        var p := r.value.value.value.1;
        jobs[j].state == Ready && jobs[j].prepared == Some(p) && Intact(cfg, staging, j, p, partSize)
        && p.generation == generation && (forall g :: (j, g) in staging <==> g == generation)
        && old(jobs)[j].file in old(sources) && PreparedFrom(cfg, p, old(sources)[old(jobs)[j].file], partSize)
      ensures r.Some? && r.value.Err? ==> Postponed(old(jobs), old(sources), j, now, generation)
    {
      assert 0 < partSize;
      SetState(j, jobs[j].(state := Preparing));
      hide Intact, PreparedFrom, JobsOk, UniqueSources, Cleaned, FailedJob, BackoffMs, JobOk;
      var prepared := PrepareJob(j, generation);
      if prepared.None? {
        return None;
      }
      if prepared.value.Err? {
        Postpone(j, now, old(jobs));
        return Some(Err(prepared.value.error));
      }
      StillIntact(cfg, jobs, staging, partSize, j);
      return Some(Ok(Some((j, prepared.value.value))));
    }

    /** `next_prepared`: a ready job if there is one; otherwise prepare the next
        that is due. None means that the process died. */
    method NextPrepared(now: int, generation: Id) returns (r: Option<Result<Option<(Id, Staged)>, AgentError>>)
      requires Valid() && forall j :: (j, generation) !in staging
      modifies this
      ensures Valid() && jobs.Keys == old(jobs).Keys
      ensures r.Some? && r.value.Ok? && r.value.value.Some? ==>
        var (j, p) := r.value.value.value;
        j in jobs && jobs[j].state == Ready && jobs[j].prepared == Some(p) && Intact(cfg, staging, j, p, partSize)
        && (forall k :: k in jobs && k != j ==> jobs[k] == old(jobs)[k])
        && (old(jobs)[j].state != Ready ==>
              p.generation == generation && (forall g :: (j, g) in staging <==> g == generation)
              && old(jobs)[j].file in old(sources)
              && PreparedFrom(cfg, p, old(sources)[old(jobs)[j].file], partSize))
      ensures r.Some? && r.value.Ok? && r.value.value.None? ==>
        jobs == old(jobs) && forall j :: j in jobs ==>
          jobs[j].state != Ready && jobs[j].state != Discovered
          && (jobs[j].state == RetryWait ==> now < jobs[j].nextRetry)
      ensures r.Some? && r.value.Err? ==> exists j :: Postponed(old(jobs), old(sources), j, now, generation)
      ensures (exists j :: j in old(jobs) && old(jobs)[j].state == Ready) ==>
        r.Some? && r.value.Ok? && r.value.value.Some? && jobs == old(jobs)
        && r.value.value.value.0 in jobs && jobs[r.value.value.value.0].state == Ready
    {
      if j :| j in jobs && jobs[j].state == Ready {
        assert JobOk(cfg, staging, partSize, j, jobs[j]);
        return Some(Ok(Some((j, jobs[j].prepared.value))));
      }
      if j :| j in jobs && Due(jobs[j], now) {
        r := PrepareDue(j, now, generation);
        return;
      }
      return Some(Ok(None));
    }
  }

  predicate Due(job: Job, now: int) {
    job.state == Discovered || (job.state == RetryWait && job.nextRetry <= now)
  }

  function FailedJob(job: Job, now: int, retryable: bool): Job {
    job.(state := if retryable then RetryWait else Failed, retries := job.retries + 1,
         nextRetry := now + BackoffMs(job.retries), upload := None)
  }

  /** A job that failed and may be retried is due exactly from its delay on; one
      that failed for good never is. */
  lemma FailedJobIsDue(job: Job, now: int, retryable: bool, later: int)
    ensures Due(FailedJob(job, now, retryable), later)
       <==> retryable && now + BackoffMs(job.retries) <= later
    ensures 2000 <= BackoffMs(job.retries)
  {
    BackoffStaysBelowItsCeiling(job.retries);
  }

  /** The ceiling of one hour is never met: the capped exponent stops far below. */
  lemma BackoffStaysBelowItsCeiling(retries: nat)
    ensures 2000 <= BackoffMs(retries) <= 2_048_000 && BackoffMs(0) == 2000
    ensures retries < 10 ==> BackoffMs(retries + 1) == 2 * BackoffMs(retries)
    ensures retries >= 10 ==> BackoffMs(retries) == BackoffMs(10) == 2_048_000
  {
    Pow2Bounds(if retries < 10 then retries else 10);
    Pow2Bounds(if retries < 10 then retries + 1 else 10);
    assert Pow2(10) == 8 * Pow2(7) && Pow2(7) == 8 * Pow2(4) && Pow2(4) == 8 * Pow2(1);
  }

  lemma {:induction false} Pow2Bounds(n: nat)
    requires n <= 10
    ensures 1 <= Pow2(n) <= 1024
    decreases 10 - n
  {
    if n < 10 {
      Pow2Bounds(n + 1);
    } else {
      assert Pow2(10) == 8 * Pow2(7) && Pow2(7) == 8 * Pow2(4) && Pow2(4) == 8 * Pow2(1);
    }
  }
}
