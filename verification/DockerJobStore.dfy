/**
 * The Docker job store: HTTP handlers, one worker and progress writers interleaving under one lock
 * with a bounded queue. Every locked region, channel operation and file operation is one step.
 */
module DockerJobStores {
  import opened Collections

  const QUEUE_CAPACITY: nat := 64

  datatype JobType = ComposeCache | ImageBuild
  datatype Manifest = Manifest(contextSha256: string, contextBytes: nat)

  /** `json` is the marshalled request; two requests are the same job when it is equal. */
  datatype JobRequest = JobRequest(kind: JobType, runId: string, manifest: Option<Manifest>, json: string)

  /** The part of `validateJob` that the store relies on. */
  predicate ValidJob(req: JobRequest) {
    req.kind == ImageBuild <==> req.manifest.Some?
  }

  datatype Status = AwaitingContext | Queued | Running | Succeeded | Failed
  datatype ContextInfo = ContextInfo(bytes: nat, sha256: string)
  datatype Progress = Progress(log: string, offset: int)

  datatype Job = Job(request: JobRequest, status: Status, context: Option<ContextInfo>, progress: Progress)

  function Rank(status: Status): nat {
    match status
    case AwaitingContext => 0
    case Queued => 1
    case Running => 2
    case Succeeded => 3
    case Failed => 3
  }

  predicate Terminal(status: Status) {
    status == Succeeded || status == Failed
  }

  /** A job ID is a fresh UUID; only its identity matters. */
  type JobId = nat
  type UploadId = nat

  /** An upload is admitted on a snapshot of the job, owns the staging file, then installs it. */
  datatype Phase = Admitted | Receiving | Installed
  datatype Upload = Upload(job: JobId, phase: Phase)
  datatype Staged = Staged(owner: UploadId, content: string)

  /** Between taking a job off the channel and finishing it the worker holds it. */
  datatype Worker = Idle | Holding(job: JobId) | Building(job: JobId) | Cleaned(job: JobId, ok: bool)

  /**
   * The channel and everyone about to use it. `sent` is everything ever sent; `lockHolder` is a
   * `createJob` that sends while it holds the lock; `senders` have released it.
   */
  datatype Channel = Channel(
    queue: seq<JobId>,
    sent: seq<JobId>,
    senders: set<JobId>,
    lockHolder: Option<JobId>,
    worker: Worker)

  datatype Store = Store(
    byId: map<JobId, Job>,
    byRunId: map<string, JobId>,
    channel: Channel,
    uploads: map<UploadId, Upload>,
    staging: map<JobId, Staged>,
    contexts: map<JobId, string>)

  datatype Env = Env(engine: bool, sha256: string -> string)

  const EmptyStore := Store(map[], map[], Channel([], [], {}, None, Idle), map[], map[], map[])

  datatype Step =
    | Create(req: JobRequest, id: JobId)
    | Prepare(req: JobRequest, id: JobId)
    | SendHeld
    | Send(sender: JobId)
    | Admit(upload: UploadId, job: JobId)
    | Open(upload: UploadId)
    | Receive(upload: UploadId, data: string)
    | Reject(upload: UploadId)
    | Install(upload: UploadId)
    | Commit(upload: UploadId)
    | Take
    | Start
    | WriteProgress(writer: JobId, progress: Progress)
    | FinishBuild(ok: bool)
    | Finish

  predicate Matches(env: Env, manifest: Manifest, content: string) {
    |content| == manifest.contextBytes && env.sha256(content) == manifest.contextSha256
  }

  predicate LockFree(s: Store) {
    s.channel.lockHolder.None?
  }

  predicate OwnsStaging(s: Store, u: UploadId) {
    && u in s.uploads && s.uploads[u].phase == Receiving
    && s.uploads[u].job in s.staging && s.staging[s.uploads[u].job].owner == u
  }

  /** Whether a step can happen; a fresh ID is one the store does not know. */
  predicate Enabled(env: Env, s: Store, step: Step) {
    var c := s.channel;
    match step
    case Create(req, id) => LockFree(s) && ValidJob(req) && id !in s.byId
    case Prepare(req, id) => LockFree(s) && ValidJob(req) && req.kind == ComposeCache && env.engine && id !in s.byId
    case SendHeld => c.lockHolder.Some? && |c.queue| < QUEUE_CAPACITY
    case Send(id) => id in c.senders && |c.queue| < QUEUE_CAPACITY
    case Admit(u, id) =>
      LockFree(s) && u !in s.uploads && id in s.byId && s.byId[id].request.kind == ImageBuild
        && s.byId[id].status == AwaitingContext
    case Open(u) => u in s.uploads && s.uploads[u].phase == Admitted && s.uploads[u].job !in s.staging
    case Receive(u, data) => OwnsStaging(s, u)
    case Reject(u) => u in s.uploads && (s.uploads[u].phase == Admitted || OwnsStaging(s, u))
    case Install(u) =>
      && OwnsStaging(s, u)
      && s.uploads[u].job in s.byId && s.byId[s.uploads[u].job].request.manifest.Some?
      && Matches(env, s.byId[s.uploads[u].job].request.manifest.value, s.staging[s.uploads[u].job].content)
    case Commit(u) => LockFree(s) && u in s.uploads && s.uploads[u].phase == Installed && s.uploads[u].job in s.byId
    case Take => c.worker.Idle? && |c.queue| > 0 && env.engine
    case Start => LockFree(s) && c.worker.Holding? && c.worker.job in s.byId
    case WriteProgress(id, _) => LockFree(s) && id in s.byId
    case FinishBuild(ok) => c.worker.Building?
    case Finish => LockFree(s) && c.worker.Cleaned? && c.worker.job in s.byId
  }

  /** What an enabled step does. */
  function Next(env: Env, s: Store, step: Step): Store
    requires Enabled(env, s, step)
  {
    var c := s.channel;
    match step
    case Create(req, id) => Created(env, s, req, id)
    case Prepare(req, id) => Prepared(s, req, id)
    case SendHeld => s.(channel := Sent(c, c.lockHolder.value).(lockHolder := None))
    case Send(id) => s.(channel := Sent(c, id).(senders := c.senders - {id}))
    case Admit(u, id) => s.(uploads := s.uploads[u := Upload(id, Admitted)])
    case Open(u) =>
      s.(uploads := s.uploads[u := s.uploads[u].(phase := Receiving)],
         staging := s.staging[s.uploads[u].job := Staged(u, "")])
    case Receive(u, data) =>
      var id := s.uploads[u].job;
      s.(staging := s.staging[id := Staged(u, s.staging[id].content + data)])
    case Reject(u) =>
      s.(uploads := s.uploads - {u},
         staging := if s.uploads[u].phase == Receiving then s.staging - {s.uploads[u].job} else s.staging)
    case Install(u) =>
      var id := s.uploads[u].job;
      s.(contexts := s.contexts[id := s.staging[id].content], staging := s.staging - {id},
         uploads := s.uploads[u := Upload(id, Installed)])
    case Commit(u) => Committed(s, s.uploads[u].job).(uploads := s.uploads - {u})
    case Take => s.(channel := c.(queue := c.queue[1..], worker := Holding(c.queue[0])))
    case Start => WithStatus(s, c.worker.job, Running).(channel := c.(worker := Building(c.worker.job)))
    case WriteProgress(id, progress) => s.(byId := s.byId[id := s.byId[id].(progress := progress)])
    case FinishBuild(ok) =>
      s.(contexts := s.contexts - {c.worker.job},
         channel := c.(worker := Cleaned(c.worker.job, ok)))
    case Finish =>
      WithStatus(s, c.worker.job, if c.worker.ok then Succeeded else Failed).(channel := c.(worker := Idle))
  }

  function Sent(c: Channel, id: JobId): Channel {
    c.(queue := c.queue + [id], sent := c.sent + [id])
  }

  function WithStatus(s: Store, id: JobId, status: Status): Store
    requires id in s.byId
  {
    s.(byId := s.byId[id := s.byId[id].(status := status)])
  }

  /** `createJob`: a known run is answered from the store, a new one inserted and perhaps sent under the lock. */
  function Created(env: Env, s: Store, req: JobRequest, id: JobId): Store {
    if req.runId in s.byRunId then s
    else
      Inserted(s, req, id, if req.kind == ImageBuild then AwaitingContext else Queued).(
        channel := s.channel.(lockHolder := if req.kind == ComposeCache && env.engine then Some(id) else None))
  }

  /** `prepareCompat`: the same without comparing requests, sending after the lock is released. */
  function Prepared(s: Store, req: JobRequest, id: JobId): Store {
    if req.runId in s.byRunId then s
    else Inserted(s, req, id, Queued).(channel := s.channel.(senders := s.channel.senders + {id}))
  }

  function Inserted(s: Store, req: JobRequest, id: JobId, status: Status): Store {
    s.(byId := s.byId[id := Job(req, status, None, Progress("", 0))], byRunId := s.byRunId[req.runId := id])
  }

  function DeclaredContext(req: JobRequest): Option<ContextInfo> {
    if req.manifest.None? then None
    else Some(ContextInfo(req.manifest.value.contextBytes, req.manifest.value.contextSha256))
  }

  /** The locked end of an upload: only the first to get here queues the job. */
  function Committed(s: Store, id: JobId): Store
    requires id in s.byId
  {
    var job := s.byId[id];
    if job.status != AwaitingContext then s
    else
      s.(byId := s.byId[id := job.(status := Queued, context := DeclaredContext(job.request))],
         channel := s.channel.(senders := s.channel.senders + {id}))
  }

  // ---------------------------------------------------------------- the invariant

  ghost predicate OneToOne(byId: map<JobId, Job>, byRunId: map<string, JobId>) {
    && (forall r :: r in byRunId ==> byRunId[r] in byId && byId[byRunId[r]].request.runId == r)
    && (forall id :: id in byId ==>
          ValidJob(byId[id].request) && byId[id].request.runId in byRunId && byRunId[byId[id].request.runId] == id)
  }

  predicate Waiting(c: Channel, id: JobId) {
    id in c.senders || c.lockHolder == Some(id)
  }

  predicate HeldByWorker(c: Channel, id: JobId) {
    !c.worker.Idle? && c.worker.job == id
  }

  /** A job is sent at most once, and the queue holds what was sent and not yet taken. */
  ghost predicate SentOnce(c: Channel) {
    && NoDuplicates(c.sent)
    && |c.queue| <= QUEUE_CAPACITY && |c.queue| <= |c.sent|
    && c.queue == c.sent[|c.sent| - |c.queue|..]
    && (forall id :: Waiting(c, id) ==> id !in c.sent)
    && (c.lockHolder.Some? ==> c.lockHolder.value !in c.senders)
    && (!c.worker.Idle? ==> c.worker.job in c.sent && c.worker.job !in c.queue)
  }

  /** Status and whereabouts of a job agree. */
  predicate Agrees(engine: bool, c: Channel, id: JobId, status: Status) {
    match status
    case AwaitingContext => id !in c.sent && !Waiting(c, id)
    case Queued =>
      if id in c.sent then id in c.queue || c.worker == Holding(id)
      else Waiting(c, id) || !engine
    case Running => id in c.sent && id !in c.queue && HeldByWorker(c, id) && !c.worker.Holding?
    case Succeeded => id in c.sent && id !in c.queue && !HeldByWorker(c, id)
    case Failed => id in c.sent && id !in c.queue && !HeldByWorker(c, id)
  }

  ghost predicate Whereabouts(engine: bool, byId: map<JobId, Job>, c: Channel) {
    && (forall id :: id in byId ==> Agrees(engine, c, id, byId[id].status))
    && (forall id :: id in c.sent || Waiting(c, id) ==> id in byId)
    && (!engine ==> c.worker.Idle? && c.lockHolder.None?)
  }

  /** The context a build will read or is reading: declared as the manifest says and on disk as declared. */
  predicate ContextReady(s: Store, id: JobId)
    requires id in s.byId && s.byId[id].request.manifest.Some?
  {
    && s.byId[id].context == DeclaredContext(s.byId[id].request)
    && (s.channel.worker == Cleaned(id, true) || s.channel.worker == Cleaned(id, false) || id in s.contexts)
  }

  /** Every context on disk is as its job declared it. */
  ghost predicate FilesMatch(env: Env, byId: map<JobId, Job>, contexts: map<JobId, string>) {
    forall id :: id in contexts ==>
      id in byId && byId[id].request.manifest.Some? && Matches(env, byId[id].request.manifest.value, contexts[id])
  }

  /** An installed upload whose job still waits for its context has put it on disk. */
  predicate UploadInv(byId: map<JobId, Job>, contexts: map<JobId, string>, upload: Upload) {
    && upload.job in byId && byId[upload.job].request.manifest.Some?
    && (upload.phase == Installed && byId[upload.job].status == AwaitingContext ==> upload.job in contexts)
  }

  ghost predicate UploadsInv(byId: map<JobId, Job>, contexts: map<JobId, string>, uploads: map<UploadId, Upload>) {
    forall u :: u in uploads ==> UploadInv(byId, contexts, uploads[u])
  }

  ghost predicate BuildsReady(s: Store) {
    forall id :: id in s.byId && s.byId[id].request.manifest.Some? && s.byId[id].status in {Queued, Running} ==>
      ContextReady(s, id)
  }

  ghost predicate Contexts(env: Env, s: Store) {
    FilesMatch(env, s.byId, s.contexts) && UploadsInv(s.byId, s.contexts, s.uploads) && BuildsReady(s)
  }

  ghost predicate Inv(env: Env, s: Store) {
    && OneToOne(s.byId, s.byRunId)
    && SentOnce(s.channel)
    && Whereabouts(env.engine, s.byId, s.channel)
    && Contexts(env, s)
  }

  /** Nothing is forgotten: requests never change, status only moves forward, terminal jobs keep their outcome. */
  ghost predicate Forward(s: Store, t: Store) {
    && (forall r :: r in s.byRunId ==> r in t.byRunId && t.byRunId[r] == s.byRunId[r])
    && (forall id :: id in s.byId ==> id in t.byId && JobForward(s.byId[id], t.byId[id]))
    && s.channel.sent <= t.channel.sent
  }

  predicate JobForward(a: Job, b: Job) {
    && b.request == a.request
    && Rank(a.status) <= Rank(b.status)
    && (Terminal(a.status) ==> b.status == a.status && b.context == a.context)
  }

  // ---------------------------------------------------------------- each step keeps it

  lemma InsertKeepsOneToOne(byId: map<JobId, Job>, byRunId: map<string, JobId>, id: JobId, job: Job)
    requires OneToOne(byId, byRunId)
    requires id !in byId && job.request.runId !in byRunId && ValidJob(job.request)
    ensures OneToOne(byId[id := job], byRunId[job.request.runId := id])
  {
  }

  lemma UpdateKeepsOneToOne(byId: map<JobId, Job>, byRunId: map<string, JobId>, id: JobId, job: Job)
    requires OneToOne(byId, byRunId)
    requires id in byId && job.request == byId[id].request
    ensures OneToOne(byId[id := job], byRunId)
  {
  }

  lemma StepKeepsOneToOne(env: Env, s: Store, step: Step)
    requires OneToOne(s.byId, s.byRunId) && Enabled(env, s, step)
    ensures OneToOne(Next(env, s, step).byId, Next(env, s, step).byRunId)
  {
    var t := Next(env, s, step);
    match step {
      case Create(req, id) =>
        if req.runId !in s.byRunId { InsertKeepsOneToOne(s.byId, s.byRunId, id, t.byId[id]); }
      case Prepare(req, id) =>
        if req.runId !in s.byRunId { InsertKeepsOneToOne(s.byId, s.byRunId, id, t.byId[id]); }
      case Commit(u) =>
        if t.byId != s.byId { UpdateKeepsOneToOne(s.byId, s.byRunId, s.uploads[u].job, t.byId[s.uploads[u].job]); }
      case Start => UpdateKeepsOneToOne(s.byId, s.byRunId, s.channel.worker.job, t.byId[s.channel.worker.job]);
      case WriteProgress(id, progress) => UpdateKeepsOneToOne(s.byId, s.byRunId, id, t.byId[id]);
      case Finish => UpdateKeepsOneToOne(s.byId, s.byRunId, s.channel.worker.job, t.byId[s.channel.worker.job]);
      case _ =>
    }
  }

  lemma SendingKeepsInv(engine: bool, byId: map<JobId, Job>, c: Channel, id: JobId, d: Channel)
    requires SentOnce(c) && Whereabouts(engine, byId, c)
    requires Waiting(c, id) && |c.queue| < QUEUE_CAPACITY
    requires || (d == Sent(c, id).(lockHolder := None) && c.lockHolder == Some(id))
             || (d == Sent(c, id).(senders := c.senders - {id}) && id in c.senders)
    ensures SentOnce(d) && Whereabouts(engine, byId, d)
  {
    SendingKeepsOnce(c, id, d);
    forall x | x in byId ensures Agrees(engine, d, x, byId[x].status) {
      assert Agrees(engine, c, x, byId[x].status);
    }
  }

  lemma SendingKeepsOnce(c: Channel, id: JobId, d: Channel)
    requires SentOnce(c) && Waiting(c, id) && |c.queue| < QUEUE_CAPACITY
    requires || (d == Sent(c, id).(lockHolder := None) && c.lockHolder == Some(id))
             || (d == Sent(c, id).(senders := c.senders - {id}) && id in c.senders)
    ensures SentOnce(d)
  {
  }

  lemma TakingKeepsInv(engine: bool, byId: map<JobId, Job>, c: Channel)
    requires SentOnce(c) && Whereabouts(engine, byId, c)
    requires c.worker.Idle? && |c.queue| > 0 && engine
    ensures
      var d := c.(queue := c.queue[1..], worker := Holding(c.queue[0]));
      SentOnce(d) && Whereabouts(engine, byId, d)
  {
    var d := c.(queue := c.queue[1..], worker := Holding(c.queue[0]));
    assert c.queue[0] == c.sent[|c.sent| - |c.queue|];
    assert c.queue == [c.queue[0]] + d.queue;
    forall i | 0 <= i < |d.queue| ensures d.queue[i] != c.queue[0] {
      assert d.queue[i] == c.sent[|c.sent| - |d.queue| + i];
    }
    forall x | x in byId ensures Agrees(engine, d, x, byId[x].status) {
      assert Agrees(engine, c, x, byId[x].status);
    }
  }

  /** The worker's own steps: it alone moves the job it holds. */
  lemma WorkingKeepsInv(engine: bool, byId: map<JobId, Job>, c: Channel, job: Job, worker: Worker)
    requires SentOnce(c) && Whereabouts(engine, byId, c)
    requires !c.worker.Idle? && c.worker.job in byId
    requires || (worker == Building(c.worker.job) && job.status == Running)
             || (worker.Cleaned? && worker.job == c.worker.job && job.status == Running)
             || (worker == Idle && Terminal(job.status))
    ensures SentOnce(c.(worker := worker))
    ensures Whereabouts(engine, byId[c.worker.job := job], c.(worker := worker))
  {
    var d, after := c.(worker := worker), byId[c.worker.job := job];
    forall x | x in after ensures Agrees(engine, d, x, after[x].status) {
      if x in byId { assert Agrees(engine, c, x, byId[x].status); }
    }
  }

  /** A job about to be sent, or not to be sent at all. */
  lemma EnteringKeepsInv(engine: bool, byId: map<JobId, Job>, c: Channel, id: JobId, job: Job, d: Channel)
    requires SentOnce(c) && Whereabouts(engine, byId, c)
    requires id in byId ==> byId[id].status == AwaitingContext
    requires || (d == c && job.status == AwaitingContext)
             || (d == c && job.status == Queued && !engine)
             || (d == c.(lockHolder := Some(id)) && c.lockHolder.None? && engine && job.status == Queued)
             || (d == c.(senders := c.senders + {id}) && c.lockHolder.None? && job.status == Queued)
    ensures SentOnce(d) && Whereabouts(engine, byId[id := job], d)
  {
    assert id !in c.sent && !Waiting(c, id) by {
      if id in byId { assert Agrees(engine, c, id, byId[id].status); }
    }
    var after := byId[id := job];
    forall x | x in after ensures Agrees(engine, d, x, after[x].status) {
      if x != id { assert Agrees(engine, c, x, byId[x].status); }
    }
  }

  lemma StepKeepsChannel(env: Env, s: Store, step: Step)
    requires SentOnce(s.channel) && Whereabouts(env.engine, s.byId, s.channel) && Enabled(env, s, step)
    ensures SentOnce(Next(env, s, step).channel)
    ensures Whereabouts(env.engine, Next(env, s, step).byId, Next(env, s, step).channel)
  {
    var c, t := s.channel, Next(env, s, step);
    match step {
      case Create(req, id) =>
        if req.runId !in s.byRunId {
          EnteringKeepsInv(env.engine, s.byId, c, id, t.byId[id], t.channel);
        }
      case Prepare(req, id) =>
        if req.runId !in s.byRunId {
          EnteringKeepsInv(env.engine, s.byId, c, id, t.byId[id], t.channel);
        }
      case SendHeld => SendingKeepsInv(env.engine, s.byId, c, c.lockHolder.value, t.channel);
      case Send(id) => SendingKeepsInv(env.engine, s.byId, c, id, t.channel);
      case Commit(u) =>
        var id := s.uploads[u].job;
        if s.byId[id].status == AwaitingContext {
          EnteringKeepsInv(env.engine, s.byId, c, id, t.byId[id], t.channel);
        }
      case Take => TakingKeepsInv(env.engine, s.byId, c);
      case Start => WorkingKeepsInv(env.engine, s.byId, c, t.byId[c.worker.job], t.channel.worker);
      case FinishBuild(ok) =>
        assert Agrees(env.engine, c, c.worker.job, s.byId[c.worker.job].status);
        WorkingKeepsInv(env.engine, s.byId, c, s.byId[c.worker.job], t.channel.worker);
        assert s.byId[c.worker.job := s.byId[c.worker.job]] == s.byId;
      case Finish => WorkingKeepsInv(env.engine, s.byId, c, t.byId[c.worker.job], t.channel.worker);
      case WriteProgress(id, progress) =>
        forall x | x in t.byId ensures Agrees(env.engine, t.channel, x, t.byId[x].status) {
          assert Agrees(env.engine, c, x, s.byId[x].status);
        }
      case _ =>
    }
  }

  lemma StepKeepsFiles(env: Env, s: Store, step: Step)
    requires FilesMatch(env, s.byId, s.contexts) && Enabled(env, s, step)
    ensures FilesMatch(env, Next(env, s, step).byId, Next(env, s, step).contexts)
  {
    var t := Next(env, s, step);
    forall id | id in t.contexts
      ensures id in t.byId && t.byId[id].request.manifest.Some?
          && Matches(env, t.byId[id].request.manifest.value, t.contexts[id])
    {
      if id in s.contexts {
        assert s.byId[id].request.manifest.Some? && Matches(env, s.byId[id].request.manifest.value, s.contexts[id]);
      }
    }
  }

  lemma UploadStays(env: Env, s: Store, step: Step, u: UploadId)
    requires Enabled(env, s, step) && u in Next(env, s, step).uploads
    requires u in s.uploads ==> UploadInv(s.byId, s.contexts, s.uploads[u])
    requires u in s.uploads ==> Agrees(env.engine, s.channel, s.uploads[u].job, s.byId[s.uploads[u].job].status)
    requires step.Admit? ==> step.job in s.byId && ValidJob(s.byId[step.job].request)
    requires !s.channel.worker.Idle? ==> s.channel.worker.job in s.channel.sent
    ensures UploadInv(Next(env, s, step).byId, Next(env, s, step).contexts, Next(env, s, step).uploads[u])
  {
  }

  lemma StepKeepsUploads(env: Env, s: Store, step: Step)
    requires UploadsInv(s.byId, s.contexts, s.uploads) && Whereabouts(env.engine, s.byId, s.channel)
        && Enabled(env, s, step)
    requires OneToOne(s.byId, s.byRunId) && SentOnce(s.channel)
    ensures UploadsInv(Next(env, s, step).byId, Next(env, s, step).contexts, Next(env, s, step).uploads)
  {
    var t := Next(env, s, step);
    forall u | u in t.uploads ensures UploadInv(t.byId, t.contexts, t.uploads[u]) {
      if u in s.uploads {
        assert UploadInv(s.byId, s.contexts, s.uploads[u]);
        assert Agrees(env.engine, s.channel, s.uploads[u].job, s.byId[s.uploads[u].job].status);
      }
      UploadStays(env, s, step, u);
    }
  }

  /** A job that builds or will build, after a step: its context was ready, or the step declared it. */
  lemma JobStaysReady(env: Env, s: Store, step: Step, id: JobId)
    requires Enabled(env, s, step) && id in Next(env, s, step).byId
    requires Next(env, s, step).byId[id].request.manifest.Some?
        && Next(env, s, step).byId[id].status in {Queued, Running}
    requires id in s.byId ==> Agrees(env.engine, s.channel, id, s.byId[id].status)
    requires id in s.byId && s.byId[id].request.manifest.Some? && s.byId[id].status in {Queued, Running} ==>
        ContextReady(s, id)
    requires step.Commit? ==> UploadInv(s.byId, s.contexts, s.uploads[step.upload])
    requires !s.channel.worker.Idle? ==> s.channel.worker.job in s.byId && s.channel.worker.job in s.channel.sent
    ensures ContextReady(Next(env, s, step), id)
  {
  }

  lemma StepKeepsBuildsReady(env: Env, s: Store, step: Step)
    requires BuildsReady(s) && UploadsInv(s.byId, s.contexts, s.uploads) && Enabled(env, s, step)
    requires Whereabouts(env.engine, s.byId, s.channel) && SentOnce(s.channel)
    ensures BuildsReady(Next(env, s, step))
  {
    var t := Next(env, s, step);
    assert !s.channel.worker.Idle? ==> s.channel.worker.job in s.byId;
    assert step.Commit? ==> UploadInv(s.byId, s.contexts, s.uploads[step.upload]);
    forall id | id in t.byId && t.byId[id].request.manifest.Some? && t.byId[id].status in {Queued, Running}
      ensures ContextReady(t, id)
    {
      assert id in s.byId ==> Agrees(env.engine, s.channel, id, s.byId[id].status);
      JobStaysReady(env, s, step, id);
    }
  }

  lemma StepMovesForward(env: Env, s: Store, step: Step)
    requires Whereabouts(env.engine, s.byId, s.channel) && Enabled(env, s, step)
    ensures Forward(s, Next(env, s, step))
  {
    var c, t := s.channel, Next(env, s, step);
    if step.Start? || step.Finish? {
      assert Agrees(env.engine, c, c.worker.job, s.byId[c.worker.job].status);
    }
    forall id | id in s.byId ensures id in t.byId && JobForward(s.byId[id], t.byId[id]) {
    }
  }

  lemma StepKeepsInv(env: Env, s: Store, step: Step)
    requires Inv(env, s) && Enabled(env, s, step)
    ensures Inv(env, Next(env, s, step))
  {
    StepKeepsOneToOne(env, s, step);
    StepKeepsChannel(env, s, step);
    StepKeepsFiles(env, s, step);
    StepKeepsUploads(env, s, step);
    StepKeepsBuildsReady(env, s, step);
  }

  // ---------------------------------------------------------------- whole runs

  /** Any schedule; a step that cannot happen is skipped. */
  function RunAll(env: Env, s: Store, steps: seq<Step>): Store
    decreases |steps|
  {
    if steps == [] then s
    else RunAll(env, if Enabled(env, s, steps[0]) then Next(env, s, steps[0]) else s, steps[1..])
  }

  lemma InvOfEmpty(env: Env)
    ensures Inv(env, EmptyStore)
  {
    var s := EmptyStore;
    assert s.byId == map[] && s.byRunId == map[] && s.contexts == map[] && s.uploads == map[];
    assert s.channel.queue == [] && s.channel.sent == [] && s.channel.senders == {};
    assert OneToOne(s.byId, s.byRunId);
    assert SentOnce(s.channel) && Whereabouts(env.engine, s.byId, s.channel);
    assert Contexts(env, s);
  }

  lemma {:induction false} RunKeepsInv(env: Env, s: Store, steps: seq<Step>)
    requires Inv(env, s)
    ensures Inv(env, RunAll(env, s, steps)) && Forward(s, RunAll(env, s, steps))
    decreases |steps|
  {
    if steps != [] {
      if Enabled(env, s, steps[0]) {
        var t := Next(env, s, steps[0]);
        StepKeepsInv(env, s, steps[0]);
        StepMovesForward(env, s, steps[0]);
        RunKeepsInv(env, t, steps[1..]);
        ForwardTransitive(s, t, RunAll(env, t, steps[1..]));
      } else {
        RunKeepsInv(env, s, steps[1..]);
      }
    }
  }

  lemma ForwardTransitive(a: Store, b: Store, c: Store)
    requires Forward(a, b) && Forward(b, c)
    ensures Forward(a, c)
  {
    forall id | id in a.byId ensures id in c.byId && JobForward(a.byId[id], c.byId[id]) {
      assert JobForward(a.byId[id], b.byId[id]) && JobForward(b.byId[id], c.byId[id]);
    }
  }

  /** The context of a job that will be built or is being built is as its manifest and the job itself say. */
  predicate HasDeclaredContext(env: Env, s: Store, id: JobId)
    requires id in s.byId
  {
    var job := s.byId[id];
    job.request.manifest.Some? && (job.status == Queued || s.channel.worker == Building(id)) ==>
      && id in s.contexts
      && |s.contexts[id]| == job.request.manifest.value.contextBytes
      && env.sha256(s.contexts[id]) == job.request.manifest.value.contextSha256
      && job.context == Some(ContextInfo(|s.contexts[id]|, env.sha256(s.contexts[id])))
  }

  lemma InvariantMeans(env: Env, s: Store, id: JobId)
    requires Inv(env, s) && id in s.byId
    ensures s.byId[id].status == Running <==> HeldByWorker(s.channel, id) && !s.channel.worker.Holding?
    ensures HasDeclaredContext(env, s, id)
  {
    assert Agrees(env.engine, s.channel, id, s.byId[id].status);
    if s.byId[id].request.manifest.Some? && s.byId[id].status in {Queued, Running} {
      assert ContextReady(s, id);
    }
  }

  // ---------------------------------------------------------------- what a step may touch

  /** A run that the step brings in, stored as it was asked for. */
  ghost predicate BringsIn(s: Store, t: Store, step: Step, id: JobId)
    requires id in t.byId
  {
    && (step.Create? || step.Prepare?) && step.id == id && step.req.runId !in s.byRunId
    && t.byId[id].request == step.req
    && t.byId[id].status == (if step.req.kind == ImageBuild then AwaitingContext else Queued)
    && t.byId[id].context.None? && t.byId[id].progress == Progress("", 0)
  }

  /** The step is the first commit of an upload for this job. */
  predicate Queues(s: Store, step: Step, id: JobId) {
    && step.Commit? && step.upload in s.uploads && s.uploads[step.upload].job == id
    && id in s.byId && s.byId[id].status == AwaitingContext
  }

  /** Who writes what: uploads the context, writers the progress, the worker and the first commit the status. */
  lemma StepTouches(env: Env, s: Store, step: Step, id: JobId)
    requires Enabled(env, s, step) && id in Next(env, s, step).byId
    requires step.Prepare? ==> step.req.kind == ComposeCache
    ensures
      var t := Next(env, s, step);
      && (id !in s.byId ==> BringsIn(s, t, step, id))
      && (id in s.byId ==>
            var a, b := s.byId[id], t.byId[id];
            && b.progress == (if step.WriteProgress? && step.writer == id then step.progress else a.progress)
            && (b.context != a.context ==> Queues(s, step, id))
            && (Queues(s, step, id) ==> b.status == Queued)
            && (b.status != a.status ==>
                  Queues(s, step, id) || (HeldByWorker(s.channel, id) && (step.Start? || step.Finish?))))
  {
  }

  // ---------------------------------------------------------------- the outcome of a job

  /** In this run the worker ends the build of this job, with this result. */
  predicate EndsWith(env: Env, s: Store, steps: seq<Step>, id: JobId, ok: bool)
    decreases |steps|
  {
    steps != [] &&
    (|| (steps[0] == FinishBuild(ok) && s.channel.worker == Building(id))
     || EndsWith(env, if Enabled(env, s, steps[0]) then Next(env, s, steps[0]) else s, steps[1..], id, ok))
  }

  /** The job is recorded with this result. */
  predicate Recorded(s: Store, id: JobId, ok: bool) {
    id in s.byId && if ok then s.byId[id].status == Succeeded else s.byId[id].status == Failed
  }

  /** It is recorded, or the worker is about to record it. */
  predicate Known(s: Store, id: JobId, ok: bool) {
    Recorded(s, id, ok) || s.channel.worker == Cleaned(id, ok)
  }

  /** Where this job stands, as far as its outcome depends on it. */
  ghost predicate Stands(env: Env, s: Store, id: JobId) {
    && (id in s.byId ==> Agrees(env.engine, s.channel, id, s.byId[id].status))
    && (HeldByWorker(s.channel, id) ==> id in s.byId && id in s.channel.sent)
  }

  lemma InvStands(env: Env, s: Store, id: JobId)
    requires Inv(env, s)
    ensures Stands(env, s, id)
  {
  }

  lemma StepKeepsKnown(env: Env, s: Store, step: Step, id: JobId, ok: bool)
    requires Stands(env, s, id) && Enabled(env, s, step)
    ensures Known(Next(env, s, step), id, ok)
      <==> Known(s, id, ok) || (step == FinishBuild(ok) && s.channel.worker == Building(id))
  {
    match step {
      case Finish =>
      case FinishBuild(_) =>
      case Start =>
      case Commit(_) =>
      case Create(_, _) =>
      case Prepare(_, _) =>
      case _ =>
        assert Next(env, s, step).channel.worker == s.channel.worker || step.Take?;
    }
  }

  lemma {:induction false} RunKeepsKnown(env: Env, s: Store, steps: seq<Step>, id: JobId, ok: bool)
    requires Inv(env, s)
    ensures Known(RunAll(env, s, steps), id, ok) <==> Known(s, id, ok) || EndsWith(env, s, steps, id, ok)
    decreases |steps|
  {
    if steps != [] {
      if Enabled(env, s, steps[0]) {
        InvStands(env, s, id);
        StepKeepsKnown(env, s, steps[0], id, ok);
        StepKeepsInv(env, s, steps[0]);
        RunKeepsKnown(env, Next(env, s, steps[0]), steps[1..], id, ok);
      } else {
        RunKeepsKnown(env, s, steps[1..], id, ok);
      }
    }
  }

  /**
   * In every run a job is recorded as succeeded exactly when the worker has built it without error
   * and put it down, and as failed exactly when the build ended in an error.
   */
  lemma OutcomeIsTheBuilds(env: Env, steps: seq<Step>, id: JobId)
    ensures
      var s := RunAll(env, EmptyStore, steps);
      && (Recorded(s, id, true) <==> EndsWith(env, EmptyStore, steps, id, true) && !HeldByWorker(s.channel, id))
      && (Recorded(s, id, false) <==> EndsWith(env, EmptyStore, steps, id, false) && !HeldByWorker(s.channel, id))
  {
    InvOfEmpty(env);
    RunKeepsInv(env, EmptyStore, steps);
    RunKeepsKnown(env, EmptyStore, steps, id, true);
    RunKeepsKnown(env, EmptyStore, steps, id, false);
    var s := RunAll(env, EmptyStore, steps);
    InvStands(env, s, id);
    RecordedIsDown(env, s, id, true);
    RecordedIsDown(env, s, id, false);
  }

  lemma RecordedIsDown(env: Env, s: Store, id: JobId, ok: bool)
    requires Stands(env, s, id)
    ensures Recorded(s, id, ok) <==> Known(s, id, ok) && !HeldByWorker(s.channel, id)
  {
  }

  // ---------------------------------------------------------------- what an upload installs

  /** What one step adds to the staging file of this upload. */
  function DataFor(env: Env, s: Store, step: Step, u: UploadId): string {
    if step.Receive? && step.upload == u && Enabled(env, s, step) then step.data else ""
  }

  /** What this upload receives while it owns its staging file. */
  function ReceivedBy(env: Env, s: Store, steps: seq<Step>, u: UploadId): string
    decreases |steps|
  {
    if steps == [] then ""
    else
      DataFor(env, s, steps[0], u)
      + ReceivedBy(env, if Enabled(env, s, steps[0]) then Next(env, s, steps[0]) else s, steps[1..], u)
  }

  /** The upload owns its staging file all along. */
  predicate OwnsAlong(env: Env, s: Store, steps: seq<Step>, u: UploadId)
    decreases |steps|
  {
    && OwnsStaging(s, u)
    && (steps != [] ==>
          OwnsAlong(env, if Enabled(env, s, steps[0]) then Next(env, s, steps[0]) else s, steps[1..], u))
  }

  function StagedBy(s: Store, u: UploadId): string
    requires OwnsStaging(s, u)
  {
    s.staging[s.uploads[u].job].content
  }

  /** A staging file belongs to one upload, which is still receiving. */
  ghost predicate StagingOwned(s: Store) {
    forall id :: id in s.staging ==> OwnsStaging(s, s.staging[id].owner) && s.uploads[s.staging[id].owner].job == id
  }

  lemma StepKeepsStaging(env: Env, s: Store, step: Step)
    requires StagingOwned(s) && Enabled(env, s, step)
    ensures StagingOwned(Next(env, s, step))
  {
  }

  lemma StagedStep(env: Env, s: Store, step: Step, u: UploadId)
    requires StagingOwned(s) && Enabled(env, s, step) && OwnsStaging(s, u) && OwnsStaging(Next(env, s, step), u)
    ensures StagedBy(Next(env, s, step), u) == StagedBy(s, u) + DataFor(env, s, step, u)
  {
    assert StagedBy(s, u) + "" == StagedBy(s, u);
  }

  /** Whatever other uploads do, a staging file holds what its upload has received, in order. */
  lemma {:induction false} StagedIsReceived(env: Env, s: Store, steps: seq<Step>, u: UploadId)
    requires StagingOwned(s) && OwnsAlong(env, s, steps, u)
    ensures OwnsStaging(RunAll(env, s, steps), u)
    ensures StagedBy(RunAll(env, s, steps), u) == StagedBy(s, u) + ReceivedBy(env, s, steps, u)
    decreases |steps|
  {
    if steps == [] {
      assert StagedBy(s, u) + "" == StagedBy(s, u);
    } else {
      var t := if Enabled(env, s, steps[0]) then Next(env, s, steps[0]) else s;
      var data := DataFor(env, s, steps[0], u);
      assert OwnsStaging(t, u);
      if Enabled(env, s, steps[0]) {
        StepKeepsStaging(env, s, steps[0]);
        StagedStep(env, s, steps[0], u);
      }
      StagedIsReceived(env, t, steps[1..], u);
      assert StagedBy(t, u) == StagedBy(s, u) + data;
      assert StagedBy(s, u) + data + ReceivedBy(env, t, steps[1..], u)
        == StagedBy(s, u) + (data + ReceivedBy(env, t, steps[1..], u));
    }
  }

  lemma {:induction false} RunKeepsStaging(env: Env, s: Store, steps: seq<Step>)
    requires StagingOwned(s)
    ensures StagingOwned(RunAll(env, s, steps))
    decreases |steps|
  {
    if steps != [] {
      if Enabled(env, s, steps[0]) {
        StepKeepsStaging(env, s, steps[0]);
      }
      RunKeepsStaging(env, if Enabled(env, s, steps[0]) then Next(env, s, steps[0]) else s, steps[1..]);
    }
  }

  /**
   * In every run: an upload that opens its staging file, receives data in any number of pieces
   * between whatever else happens, and is installed, has put exactly those pieces on disk.
   */
  lemma InstalledIsReceived(env: Env, before: seq<Step>, u: UploadId, steps: seq<Step>)
    requires
      var s := RunAll(env, EmptyStore, before);
      && Enabled(env, s, Open(u)) && OwnsAlong(env, Next(env, s, Open(u)), steps, u)
      && Enabled(env, RunAll(env, Next(env, s, Open(u)), steps), Install(u))
    ensures
      var s := Next(env, RunAll(env, EmptyStore, before), Open(u));
      var t := RunAll(env, s, steps);
      var v, id := Next(env, t, Install(u)), t.uploads[u].job;
      && id in v.contexts && v.contexts[id] == ReceivedBy(env, s, steps, u) && id !in v.staging
      && id in v.byId && v.byId[id].request.manifest.Some?
      && |v.contexts[id]| == v.byId[id].request.manifest.value.contextBytes
      && env.sha256(v.contexts[id]) == v.byId[id].request.manifest.value.contextSha256
  {
    var s := RunAll(env, EmptyStore, before);
    RunKeepsStaging(env, EmptyStore, before);
    StepKeepsStaging(env, s, Open(u));
    StagedIsReceived(env, Next(env, s, Open(u)), steps, u);
    assert "" + ReceivedBy(env, Next(env, s, Open(u)), steps, u) == ReceivedBy(env, Next(env, s, Open(u)), steps, u);
  }

  /** What can be relied on in a store `s`, and from it to a later store `t`. */
  ghost predicate Reliable(env: Env, s: Store, t: Store) {
    && OneToOne(s.byId, s.byRunId)
    && NoDuplicates(s.channel.sent)
    && (forall id :: id in s.byId ==> HasDeclaredContext(env, s, id))
    && (forall id :: id in s.byId ==>
        (s.byId[id].status == Running <==> HeldByWorker(s.channel, id) && !s.channel.worker.Holding?))
    && Forward(s, t)
  }

  /**
   * In every reachable store, and from it to every later one: runs and jobs are one-to-one, a job
   * enters the queue at most once, an image build that is queued or being built has the context its
   * manifest declares, requests never change, status only moves forward and terminal jobs are final.
   */
  lemma EveryStoreRun(env: Env, steps: seq<Step>, later: seq<Step>)
    ensures
      var s := RunAll(env, EmptyStore, steps);
      Reliable(env, s, RunAll(env, s, later))
  {
    InvOfEmpty(env);
    RunKeepsInv(env, EmptyStore, steps);
    var s := RunAll(env, EmptyStore, steps);
    RunKeepsInv(env, s, later);
    InvIsReliable(env, s, RunAll(env, s, later));
  }

  lemma InvIsReliable(env: Env, s: Store, t: Store)
    requires Inv(env, s) && Forward(s, t)
    ensures Reliable(env, s, t)
  {
    forall id | id in s.byId
      ensures s.byId[id].status == Running <==> HeldByWorker(s.channel, id) && !s.channel.worker.Holding?
      ensures HasDeclaredContext(env, s, id)
    {
      InvariantMeans(env, s, id);
    }
  }

  // ---------------------------------------------------------------- sending under the lock

  /** A sender holds the lock on a full queue while the worker needs the lock to take anything more. */
  predicate Stuck(c: Channel) {
    c.lockHolder.Some? && |c.queue| == QUEUE_CAPACITY && !c.worker.Idle?
  }

  /** Once stuck, no schedule changes any job again. */
  lemma {:induction false} StuckForGood(env: Env, s: Store, steps: seq<Step>)
    requires Stuck(s.channel)
    ensures
      var t := RunAll(env, s, steps);
      Stuck(t.channel) && t.byId == s.byId && t.byRunId == s.byRunId
    decreases |steps|
  {
    if steps != [] {
      var t := if Enabled(env, s, steps[0]) then Next(env, s, steps[0]) else s;
      assert Stuck(t.channel) && t.byId == s.byId && t.byRunId == s.byRunId;
      StuckForGood(env, t, steps[1..]);
    }
  }

  ghost predicate Releases(env: Env, s: Store, steps: seq<Step>) {
    LockFree(RunAll(env, s, steps))
  }

  /** The lock can be released from a reachable store if and only if it is not stuck. */
  lemma LockReleasableUnlessStuck(env: Env, s: Store)
    requires Inv(env, s)
    ensures (exists steps :: Releases(env, s, steps)) <==> !Stuck(s.channel)
  {
    if Stuck(s.channel) {
      forall steps ensures !Releases(env, s, steps) {
        StuckForGood(env, s, steps);
      }
    } else if LockFree(s) {
      assert Releases(env, s, []);
    } else if |s.channel.queue| < QUEUE_CAPACITY {
      SendingReleases(env, s);
      assert Releases(env, s, [SendHeld]);
    } else {
      SendingReleases(env, Next(env, s, Take));
      assert [Take, SendHeld][1..] == [SendHeld];
      assert Releases(env, s, [Take, SendHeld]);
    }
  }

  lemma SendingReleases(env: Env, s: Store)
    requires s.channel.lockHolder.Some? && |s.channel.queue| < QUEUE_CAPACITY
    ensures Releases(env, s, [SendHeld])
  {
    assert RunAll(env, Next(env, s, SendHeld), []) == Next(env, s, SendHeld);
  }

  // ---------------------------------------------------------------- when creating a job costs the lock

  /** What the channel has to take in before the worker is idle again: queued, about to be sent, or held. */
  function Load(c: Channel): nat {
    |c.queue| + |c.senders| + if c.worker.Idle? then 0 else 1
  }

  /** While a creator holds the lock, sending and taking only move jobs along: the load stays. */
  lemma HeldStepKeepsLoad(env: Env, s: Store, step: Step)
    requires s.channel.lockHolder.Some? && Enabled(env, s, step) && step != SendHeld
    ensures Next(env, s, step).channel.lockHolder == s.channel.lockHolder
    ensures Load(Next(env, s, step).channel) == Load(s.channel)
  {
  }

  lemma {:induction false} HeldRunKeepsLoad(env: Env, s: Store, steps: seq<Step>)
    requires s.channel.lockHolder.Some? && SendHeld !in steps
    ensures RunAll(env, s, steps).channel.lockHolder == s.channel.lockHolder
    ensures Load(RunAll(env, s, steps).channel) == Load(s.channel)
    decreases |steps|
  {
    if steps != [] {
      assert steps[0] in steps && SendHeld !in steps[1..];
      if Enabled(env, s, steps[0]) {
        HeldStepKeepsLoad(env, s, steps[0]);
        HeldRunKeepsLoad(env, Next(env, s, steps[0]), steps[1..]);
      } else {
        HeldRunKeepsLoad(env, s, steps[1..]);
      }
    }
  }

  /** This schedule gets the store stuck before the lock is released. */
  ghost predicate SticksHeld(env: Env, s: Store, steps: seq<Step>) {
    SendHeld !in steps && Stuck(RunAll(env, s, steps).channel)
  }

  lemma SticksAfter(env: Env, s: Store, step: Step, steps: seq<Step>)
    requires Enabled(env, s, step) && step != SendHeld && SticksHeld(env, Next(env, s, step), steps)
    ensures SticksHeld(env, s, [step] + steps)
  {
    assert ([step] + steps)[1..] == steps;
  }

  /** Under a busy worker the waiting senders can fill the queue. */
  lemma {:induction false} SendersFillQueue(env: Env, s: Store) returns (steps: seq<Step>)
    requires s.channel.lockHolder.Some? && !s.channel.worker.Idle?
    requires |s.channel.queue| <= QUEUE_CAPACITY < Load(s.channel)
    ensures SticksHeld(env, s, steps)
    decreases QUEUE_CAPACITY - |s.channel.queue|
  {
    if |s.channel.queue| == QUEUE_CAPACITY {
      steps := [];
    } else {
      var id: JobId :| id in s.channel.senders;
      HeldStepKeepsLoad(env, s, Send(id));
      var rest := SendersFillQueue(env, Next(env, s, Send(id)));
      SticksAfter(env, s, Send(id), rest);
      steps := [Send(id)] + rest;
    }
  }

  /** An idle worker takes a job, which a waiting sender may first have to send. */
  lemma SomeScheduleSticks(env: Env, s: Store) returns (steps: seq<Step>)
    requires s.channel.lockHolder.Some? && env.engine
    requires |s.channel.queue| <= QUEUE_CAPACITY < Load(s.channel)
    ensures SticksHeld(env, s, steps)
  {
    if !s.channel.worker.Idle? {
      steps := SendersFillQueue(env, s);
    } else if s.channel.queue != [] {
      HeldStepKeepsLoad(env, s, Take);
      var rest := SendersFillQueue(env, Next(env, s, Take));
      SticksAfter(env, s, Take, rest);
      steps := [Take] + rest;
    } else {
      var id: JobId :| id in s.channel.senders;
      var sent := Next(env, s, Send(id));
      HeldStepKeepsLoad(env, s, Send(id));
      HeldStepKeepsLoad(env, sent, Take);
      var rest := SendersFillQueue(env, Next(env, sent, Take));
      SticksAfter(env, sent, Take, rest);
      SticksAfter(env, s, Send(id), [Take] + rest);
      steps := [Send(id)] + ([Take] + rest);
    }
  }

  /** A creator that is about to send a new Compose job under the lock. */
  predicate CreatesUnderLock(env: Env, s: Store, req: JobRequest, id: JobId) {
    Enabled(env, s, Create(req, id)) && env.engine && req.kind == ComposeCache && req.runId !in s.byRunId
  }

  /**
   * Exactly when a new Compose job can cost the lock: some schedule sticks before the creator has
   * sent if and only if more than 64 jobs are queued, waiting to be sent or held by the worker when
   * the request comes in.
   */
  lemma CreatingCanStickIff(env: Env, s: Store, req: JobRequest, id: JobId)
    requires Inv(env, s) && CreatesUnderLock(env, s, req, id)
    ensures (exists steps :: SticksHeld(env, Next(env, s, Create(req, id)), steps))
        <==> Load(s.channel) > QUEUE_CAPACITY
  {
    var t := Next(env, s, Create(req, id));
    if Load(s.channel) > QUEUE_CAPACITY {
      var steps := SomeScheduleSticks(env, t);
    } else {
      forall steps ensures !SticksHeld(env, t, steps) {
        if SendHeld !in steps {
          HeldRunKeepsLoad(env, t, steps);
        }
      }
    }
  }

  /** From here some schedule gives the lock back. */
  ghost predicate CanRelease(env: Env, s: Store) {
    exists more :: Releases(env, s, more)
  }

  /** Whatever has happened while the lock was held, it can still be given back. */
  ghost predicate LockAlwaysComesBack(env: Env, s: Store) {
    forall steps | SendHeld !in steps :: CanRelease(env, RunAll(env, s, steps))
  }

  /** The creator is sure to be able to send and give the lock back under the same condition, and no other. */
  lemma LockComesBackIff(env: Env, s: Store, req: JobRequest, id: JobId)
    requires Inv(env, s) && CreatesUnderLock(env, s, req, id)
    ensures LockAlwaysComesBack(env, Next(env, s, Create(req, id))) <==> Load(s.channel) <= QUEUE_CAPACITY
  {
    var t := Next(env, s, Create(req, id));
    StepKeepsInv(env, s, Create(req, id));
    CreatingCanStickIff(env, s, req, id);
    if Load(s.channel) <= QUEUE_CAPACITY {
      forall steps | SendHeld !in steps ensures CanRelease(env, RunAll(env, t, steps)) {
        RunKeepsInv(env, t, steps);
        assert !SticksHeld(env, t, steps);
        LockReleasableUnlessStuck(env, RunAll(env, t, steps));
      }
    } else {
      var steps :| SticksHeld(env, t, steps);
      RunKeepsInv(env, t, steps);
      LockReleasableUnlessStuck(env, RunAll(env, t, steps));
      assert !CanRelease(env, RunAll(env, t, steps));
    }
  }

  // ---------------------------------------------------------------- a run that gets stuck

  function RunName(n: nat): string {
    if n == 0 then "" else RunName(n - 1) + "r"
  }

  lemma {:induction false} RunNameLength(n: nat)
    ensures |RunName(n)| == n
  {
    if n > 0 { RunNameLength(n - 1); }
  }

  function ComposeRun(n: nat): JobRequest {
    JobRequest(ComposeCache, RunName(n), None, "{}")
  }

  function UpTo(n: nat): set<JobId> {
    if n == 0 then {} else UpTo(n - 1) + {n - 1}
  }

  lemma {:induction false} UpToCounts(n: nat)
    ensures |UpTo(n)| == n && forall id: JobId :: id in UpTo(n) <==> id < n
  {
    if n > 0 { UpToCounts(n - 1); }
  }

  /** The first `n` Compose runs have come in by the compatibility route and wait to be sent. */
  ghost predicate Crowded(s: Store, n: nat) {
    && s.channel == Channel([], [], UpTo(n), None, Idle)
    && (forall id | id in s.byId :: id < n)
    && (forall r | r in s.byRunId :: |r| < n)
  }

  lemma {:induction false} RunJoin(env: Env, s: Store, a: seq<Step>, b: seq<Step>)
    ensures RunAll(env, s, a + b) == RunAll(env, RunAll(env, s, a), b)
    decreases |a|
  {
    if a == [] {
      assert a + b == b;
    } else {
      assert (a + b)[1..] == a[1..] + b;
      RunJoin(env, if Enabled(env, s, a[0]) then Next(env, s, a[0]) else s, a[1..], b);
    }
  }

  lemma OneMoreSender(env: Env, s: Store, n: nat)
    requires env.engine && Crowded(s, n)
    ensures Enabled(env, s, Prepare(ComposeRun(n), n)) && Crowded(Next(env, s, Prepare(ComposeRun(n), n)), n + 1)
  {
    RunNameLength(n);
  }

  lemma {:induction false} Crowd(env: Env, n: nat) returns (steps: seq<Step>)
    requires env.engine
    ensures Crowded(RunAll(env, EmptyStore, steps), n)
  {
    if n == 0 {
      steps := [];
    } else {
      var before := Crowd(env, n - 1);
      var step := Prepare(ComposeRun(n - 1), n - 1);
      var s := RunAll(env, EmptyStore, before);
      OneMoreSender(env, s, n - 1);
      RunJoin(env, EmptyStore, before, [step]);
      assert RunAll(env, s, [step]) == RunAll(env, Next(env, s, step), []);
      steps := before + [step];
    }
  }

  /** Sixty-five senders past the lock and one creator under it: from the empty store a run gets stuck for good. */
  lemma StuckIsReachable(env: Env) returns (steps: seq<Step>)
    requires env.engine
    ensures Stuck(RunAll(env, EmptyStore, steps).channel) && Inv(env, RunAll(env, EmptyStore, steps))
  {
    var n := QUEUE_CAPACITY + 1;
    var before := Crowd(env, n);
    var s := RunAll(env, EmptyStore, before);
    InvOfEmpty(env);
    RunKeepsInv(env, EmptyStore, before);
    UpToCounts(n);
    RunNameLength(n);
    var create := Create(ComposeRun(n), n);
    assert CreatesUnderLock(env, s, ComposeRun(n), n);
    var t := Next(env, s, create);
    var rest := SomeScheduleSticks(env, t);
    assert ([create] + rest)[1..] == rest;
    RunJoin(env, EmptyStore, before, [create] + rest);
    steps := before + ([create] + rest);
    RunKeepsInv(env, EmptyStore, steps);
  }

  // ---------------------------------------------------------------- a run from request to outcome

  lemma RunSnoc(env: Env, steps: seq<Step>, s: Store, step: Step)
    requires RunAll(env, EmptyStore, steps) == s && Enabled(env, s, step)
    ensures RunAll(env, EmptyStore, steps + [step]) == Next(env, s, step)
  {
    RunJoin(env, EmptyStore, steps, [step]);
    assert [step][1..] == [];
  }

  /** The store with one image build. */
  function OneBuild(job: Job, channel: Channel, uploads: map<UploadId, Upload>, staging: map<JobId, Staged>,
                    contexts: map<JobId, string>): Store {
    Store(map[0 := job], map[job.request.runId := 0], channel, uploads, staging, contexts)
  }

  const NotSent: Channel := Channel([], [], {}, None, Idle)

  /** One build that awaits its context, with one upload. */
  function Awaiting(req: JobRequest, phase: Phase, staging: map<JobId, Staged>, contexts: map<JobId, string>): Store {
    OneBuild(Job(req, AwaitingContext, None, Progress("", 0)), NotSent, map[7 := Upload(0, phase)], staging, contexts)
  }

  lemma UploadOpens(env: Env, req: JobRequest) returns (steps: seq<Step>)
    requires req.kind == ImageBuild && req.manifest.Some?
    ensures RunAll(env, EmptyStore, steps) == Awaiting(req, Receiving, map[0 := Staged(7, "")], map[])
  {
    var created := OneBuild(Job(req, AwaitingContext, None, Progress("", 0)), NotSent, map[], map[], map[]);
    assert Next(env, EmptyStore, Create(req, 0)) == created;
    RunSnoc(env, [], EmptyStore, Create(req, 0));
    steps := [] + [Create(req, 0)];
    assert Next(env, created, Admit(7, 0)) == Awaiting(req, Admitted, map[], map[]);
    RunSnoc(env, steps, created, Admit(7, 0));
    steps := steps + [Admit(7, 0)];
    RunSnoc(env, steps, Awaiting(req, Admitted, map[], map[]), Open(7));
    steps := steps + [Open(7)];
  }

  lemma ReceivesMore(env: Env, req: JobRequest, steps: seq<Step>, data: string, more: string)
    requires RunAll(env, EmptyStore, steps) == Awaiting(req, Receiving, map[0 := Staged(7, data)], map[])
    ensures RunAll(env, EmptyStore, steps + [Receive(7, more)])
         == Awaiting(req, Receiving, map[0 := Staged(7, data + more)], map[])
  {
    RunSnoc(env, steps, Awaiting(req, Receiving, map[0 := Staged(7, data)], map[]), Receive(7, more));
  }

  lemma FullUploadQueues(env: Env, req: JobRequest, steps: seq<Step>, data: string)
    requires req.kind == ImageBuild && req.manifest.Some?
    requires |data| == req.manifest.value.contextBytes && env.sha256(data) == req.manifest.value.contextSha256
    requires RunAll(env, EmptyStore, steps) == Awaiting(req, Receiving, map[0 := Staged(7, data)], map[])
    ensures RunAll(env, EmptyStore, steps + [Install(7)] + [Commit(7)])
         == OneBuild(Job(req, Queued, Some(ContextInfo(|data|, env.sha256(data))), Progress("", 0)),
                     Channel([], [], {0}, None, Idle), map[], map[], map[0 := data])
  {
    var full := Awaiting(req, Receiving, map[0 := Staged(7, data)], map[]);
    RunSnoc(env, steps, full, Install(7));
    var installed := Awaiting(req, Installed, map[], map[0 := data]);
    assert Next(env, full, Install(7)) == installed;
    RunSnoc(env, steps + [Install(7)], installed, Commit(7));
  }

  /** A context that is as declared, uploaded in two pieces: the job is queued and the upload is over. */
  lemma UploadQueues(env: Env, req: JobRequest, one: string, two: string) returns (steps: seq<Step>)
    requires req.kind == ImageBuild && req.manifest.Some?
    requires |one + two| == req.manifest.value.contextBytes && env.sha256(one + two) == req.manifest.value.contextSha256
    ensures RunAll(env, EmptyStore, steps)
         == OneBuild(Job(req, Queued, Some(ContextInfo(|one + two|, env.sha256(one + two))), Progress("", 0)),
                     Channel([], [], {0}, None, Idle), map[], map[], map[0 := one + two])
  {
    steps := UploadOpens(env, req);
    ReceivesMore(env, req, steps, "", one);
    assert "" + one == one;
    ReceivesMore(env, req, steps + [Receive(7, one)], one, two);
    FullUploadQueues(env, req, steps + [Receive(7, one)] + [Receive(7, two)], one + two);
    steps := steps + [Receive(7, one)] + [Receive(7, two)] + [Install(7)] + [Commit(7)];
  }

  /** From there the worker builds it and records the outcome, and the context is gone. */
  lemma ImageBuildEnds(env: Env, req: JobRequest, one: string, two: string, ok: bool) returns (steps: seq<Step>)
    requires env.engine && req.kind == ImageBuild && req.manifest.Some?
    requires |one + two| == req.manifest.value.contextBytes && env.sha256(one + two) == req.manifest.value.contextSha256
    ensures
      var context := ContextInfo(|one + two|, env.sha256(one + two));
      RunAll(env, EmptyStore, steps)
        == OneBuild(Job(req, if ok then Succeeded else Failed, Some(context), Progress("", 0)),
                    Channel([], [0], {}, None, Idle), map[], map[], map[])
  {
    var data := one + two;
    var job := Job(req, Queued, Some(ContextInfo(|data|, env.sha256(data))), Progress("", 0));
    steps := UploadQueues(env, req, one, two);
    var queued := OneBuild(job, Channel([], [], {0}, None, Idle), map[], map[], map[0 := data]);
    RunSnoc(env, steps, queued, Send(0));
    steps := steps + [Send(0)];
    var sent := queued.(channel := Channel([0], [0], {}, None, Idle));
    RunSnoc(env, steps, sent, Take);
    steps := steps + [Take];
    var taken := queued.(channel := Channel([], [0], {}, None, Holding(0)));
    RunSnoc(env, steps, taken, Start);
    steps := steps + [Start];
    var channel := Channel([], [0], {}, None, Building(0));
    var building := OneBuild(job.(status := Running), channel, map[], map[], map[0 := data]);
    RunSnoc(env, steps, building, FinishBuild(ok));
    steps := steps + [FinishBuild(ok)];
    var cleaned := OneBuild(job.(status := Running), channel.(worker := Cleaned(0, ok)), map[], map[], map[]);
    RunSnoc(env, steps, cleaned, Finish);
    steps := steps + [Finish];
  }

  // ---------------------------------------------------------------- the handler object

  datatype Reply = BadRequest | Conflict | Accepted(job: Job)

  class Handler {
    const env: Env
    var byId: map<JobId, Job>
    var byRunId: map<string, JobId>
    var channel: Channel
    var uploads: map<UploadId, Upload>
    var staging: map<JobId, Staged>
    var contexts: map<JobId, string>

    function State(): Store
      reads this
    {
      Store(byId, byRunId, channel, uploads, staging, contexts)
    }

    constructor (env: Env)
      ensures this.env == env && State() == EmptyStore
    {
      this.env := env;
      byId, byRunId, channel := map[], map[], Channel([], [], {}, None, Idle);
      uploads, staging, contexts := map[], map[], map[];
    }

    method CreateJob(req: JobRequest, id: JobId) returns (reply: Reply)
      requires LockFree(State()) && id !in byId
      requires Inv(env, State())
      modifies this
      ensures State() == if ValidJob(req) then Next(env, old(State()), Create(req, id)) else old(State())
      ensures reply == BadRequest <==> !ValidJob(req)
      ensures reply == Conflict <==>
        ValidJob(req) && req.runId in old(byRunId) && old(byId)[old(byRunId)[req.runId]].request.json != req.json
      ensures reply.Accepted? ==>
        req.runId in byRunId && reply.job == byId[byRunId[req.runId]] && reply.job.request.json == req.json
      ensures reply.Accepted? && req.runId !in old(byRunId) ==>
        && byRunId == old(byRunId)[req.runId := id] && byId == old(byId)[id := reply.job]
        && reply.job.request == req && reply.job.context.None? && reply.job.progress == Progress("", 0)
        && reply.job.status == (if req.kind == ImageBuild then AwaitingContext else Queued)
        && (channel.lockHolder == Some(id) <==> req.kind == ComposeCache && env.engine)
    {
      if !ValidJob(req) {
        return BadRequest;
      }
      if req.runId in byRunId {
        var known := byId[byRunId[req.runId]];
        if known.request.json != req.json {
          return Conflict;
        }
        return Accepted(known);
      }
      var status := Queued;
      if req.kind == ImageBuild {
        status := AwaitingContext;
      }
      var job := Job(req, status, None, Progress("", 0));
      byId := byId[id := job];
      byRunId := byRunId[req.runId := id];
      if req.kind == ComposeCache && env.engine {
        channel := channel.(lockHolder := Some(id));
      }
      return Accepted(job);
    }

    /** Answers with the stored job of a known run whatever the new request says. */
    method PrepareCompat(req: JobRequest, id: JobId) returns (status: Status)
      requires Enabled(env, State(), Prepare(req, id))
      requires Inv(env, State())
      modifies this
      ensures State() == Next(env, old(State()), Prepare(req, id))
      ensures req.runId in byRunId && status == byId[byRunId[req.runId]].status
      ensures req.runId in old(byRunId) ==> State() == old(State())
      ensures req.runId !in old(byRunId) ==>
        byRunId[req.runId] == id && byId[id].request == req && status == Queued && id in channel.senders
    {
      if req.runId in byRunId {
        return byId[byRunId[req.runId]].status;
      }
      byId := byId[id := Job(req, Queued, None, Progress("", 0))];
      byRunId := byRunId[req.runId := id];
      channel := channel.(senders := channel.senders + {id});
      return Queued;
    }

    /** The end of a verified upload, under the lock; false answers 409. */
    method CommitUpload(u: UploadId) returns (first: bool)
      requires Enabled(env, State(), Commit(u))
      modifies this
      ensures State() == Next(env, old(State()), Commit(u))
      ensures first <==> old(byId)[old(uploads)[u].job].status == AwaitingContext
      ensures
        var id := old(uploads)[u].job;
        var manifest := old(byId)[id].request.manifest;
        if first then
          && channel.senders == old(channel).senders + {id} && byId[id].status == Queued
          && (manifest.Some? ==>
                byId[id].context == Some(ContextInfo(manifest.value.contextBytes, manifest.value.contextSha256)))
        else byId == old(byId) && channel == old(channel)
    {
      var id := uploads[u].job;
      uploads := uploads - {u};
      var current := byId[id];
      if current.status != AwaitingContext {
        return false;
      }
      current := current.(status := Queued, context := DeclaredContext(current.request));
      byId := byId[id := current];
      channel := channel.(senders := channel.senders + {id});
      return true;
    }

    /** The tail of staging a context: verify size and digest, then rename it into place. */
    method InstallContext(u: UploadId) returns (ok: bool)
      requires OwnsStaging(State(), u)
      requires uploads[u].job in byId && byId[uploads[u].job].request.manifest.Some?
      modifies this
      ensures
        var id := old(uploads)[u].job;
        var manifest, content := old(byId)[id].request.manifest.value, old(staging)[id].content;
        && (ok <==> |content| == manifest.contextBytes && env.sha256(content) == manifest.contextSha256)
        && id !in staging && byId == old(byId) && channel == old(channel)
        && contexts == if ok then old(contexts)[id := content] else old(contexts)
      ensures State() == Next(env, old(State()), if ok then Install(u) else Reject(u))
    {
      var id := uploads[u].job;
      var manifest, content := byId[id].request.manifest.value, staging[id].content;
      ok := false;
      staging := staging - {id};
      if |content| == manifest.contextBytes {
        if env.sha256(content) == manifest.contextSha256 {
          contexts := contexts[id := content];
          uploads := uploads[u := Upload(id, Installed)];
          ok := true;
          return;
        }
      }
      uploads := uploads - {u};
    }

    method TakeAndStart() returns (id: JobId)
      requires Enabled(env, State(), Take) && LockFree(State())
      requires channel.queue[0] in byId
      modifies this
      ensures State() == Next(env, Next(env, old(State()), Take), Start)
      ensures id == old(channel).queue[0] && channel.queue == old(channel).queue[1..]
      ensures channel.worker == Building(id) && byId == old(byId)[id := old(byId)[id].(status := Running)]
    {
      id := channel.queue[0];
      channel := channel.(queue := channel.queue[1..], worker := Holding(id));
      var job := byId[id];
      job := job.(status := Running);
      byId := byId[id := job];
      channel := channel.(worker := Building(id));
    }

    /** The end of one turn of the worker: drop the context, then record the outcome. */
    method FinishJob(ok: bool)
      requires channel.worker.Building? && channel.worker.job in byId && LockFree(State())
      modifies this
      ensures State() == Next(env, Next(env, old(State()), FinishBuild(ok)), Finish)
      ensures
        var id := old(channel).worker.job;
        && byId == old(byId)[id := old(byId)[id].(status := if ok then Succeeded else Failed)]
        && contexts == old(contexts) - {id} && channel == old(channel).(worker := Idle)
    {
      var id := channel.worker.job;
      contexts := contexts - {id};
      var job := byId[id];
      if ok {
        job := job.(status := Succeeded);
      } else {
        job := job.(status := Failed);
      }
      byId := byId[id := job];
      channel := channel.(worker := Idle);
    }

    method WriteJobProgress(id: JobId, progress: Progress)
      requires Enabled(env, State(), WriteProgress(id, progress))
      modifies this
      ensures State() == Next(env, old(State()), WriteProgress(id, progress))
      ensures byId == old(byId)[id := old(byId)[id].(progress := progress)]
    {
      var job := byId[id];
      job := job.(progress := progress);
      byId := byId[id := job];
    }
  }
}
