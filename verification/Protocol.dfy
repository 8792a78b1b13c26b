/** The tasks of the service and what they share (src/daemon.rs, `serve`, and the send path of
    src/engine.rs): an interleaving of steps between which any other task may run. */
module Protocol {
  import opened Prelude
  import opened Models
  import W = Watchlist
  import C = Config
  import CS = ControlState

  datatype Lock = RetryTasks | Engine | Boundary | Daemon | Registry

  /** The reconciliation loop, the shutdown path and any number of connections. */
  datatype Tid = Scan | Shutdown | Connection(n: nat)

  datatype Edit =
    | AddTarget(target: WatchTarget)
    | RemoveKey(key: string)
    | EditPolicies(policies: map<string, C.PolicyOverride>)
    | EditLifecycle(staleAfter: int)

  datatype Request = Request(expected: Option<nat>, edit: Edit)

  /** `requires_recovery_boundary`: these edits wait until no send is in flight. */
  predicate NeedsBoundary(edit: Edit) { edit.RemoveKey? || edit.EditPolicies? }

  /** The keys of a watchlist after an edit. */
  function EditedKeys(edit: Edit, keys: set<string>): set<string> {
    match edit
    case AddTarget(target) => keys + {target.Key()}
    case RemoveKey(key) => keys - {key}
    case _ => keys
  }

  /** The edit adds a new member or removes a present one. */
  predicate ChangesMembership(edit: Edit, keys: set<string>) {
    match edit
    case AddTarget(target) => target.Key() !in keys
    case RemoveKey(key) => key in keys
    case _ => false
  }

  /** What a sender captured under the daemon lock. An automatic job is one scan, and
      `targets` are the keys its engine may send to; a manual job is for one key. */
  datatype Job = Job(
    automatic: bool,
    revision: nat,
    settings: C.Settings,
    doc: W.Doc,
    now: Time,
    sessions: seq<Session>,
    protected: set<string>,
    targets: set<string>)

  datatype ControlPc = Asked | Bounded | Entered | Bumped | Shown | Written | Answered(ok: bool)

  datatype LoopPc = Idle | Entered | Bumped(loaded: C.Settings) | Shown(loaded: C.Settings) | Listing | Gone

  datatype SenderPc =
    // before the engine: a plan, or an accepted operation on its way to its task
    | Planned | Accepting | Accepted | Spawning | Spawned | Marking | Marked
    // inside the engine
    | Discovering | Choosing | Wanting(key: string) | Guarded(key: string)
    | Recorded(key: string) | Resuming(key: string)
    // the commit of a scan
    | Committing | Comparing | Reconciled | Listed | Recounted

  datatype RetryPc =
    | Asked(only: string, expected: nat) | Entered(only: string, expected: nat) | Finishing | Finished | Over

  datatype StopPc =
    | Serving | Waiting | Entered | Captured(keys: set<string>, generation: nat)
    | Revoked | Draining | Closing | Closed

  /** A task carries its program counter and the guards it holds. */
  datatype Task =
    | Control(req: Request, cpc: ControlPc, locks: set<Lock>)
    | Loop(lpc: LoopPc, locks: set<Lock>)
    | Sender(job: Job, spc: SenderPc, locks: set<Lock>)
    | Retry(rpc: RetryPc, locks: set<Lock>)
    | Stop(tpc: StopPc, locks: set<Lock>)

  /** The lock a task waits for, if it waits for one. */
  function Wants(task: Task): Option<Lock> {
    match task
    case Control(req, pc, _) =>
      if pc.Asked? then Some(if NeedsBoundary(req.edit) then Boundary else Daemon)
      else if pc.Bounded? then Some(Daemon) else None
    case Loop(pc, _) => if pc.Idle? then Some(Daemon) else None
    case Sender(_, pc, _) =>
      if pc.Planned? then Some(Engine)
      else if pc.Accepting? || pc.Marking? then Some(Registry)
      else if pc.Spawning? then Some(RetryTasks)
      else if pc.Wanting? then Some(Boundary)
      else if pc.Committing? then Some(Daemon) else None
    case Retry(pc, _) => if pc.Asked? then Some(Daemon) else if pc.Finishing? then Some(Registry) else None
    case Stop(pc, _) =>
      if pc.Waiting? then Some(Daemon)
      else if pc.Revoked? then Some(RetryTasks)
      else if pc.Closing? then Some(Engine) else None
  }

  /** The counter after the awaited lock was granted. */
  function Granted(task: Task): Task
    requires Wants(task).Some?
  {
    var locks := task.locks + {Wants(task).value};
    match task
    case Control(req, pc, _) =>
      Control(req, if pc.Asked? && NeedsBoundary(req.edit) then ControlPc.Bounded else ControlPc.Entered, locks)
    case Loop(_, _) => Loop(LoopPc.Entered, locks)
    case Sender(job, pc, _) =>
      Sender(job,
             match pc
             case Planned => if job.automatic then Discovering else Marking
             case Accepting => Accepted
             case Marking => Marked
             case Spawning => Spawned
             case Wanting(key) => Guarded(key)
             case _ => Comparing,
             locks)
    case Retry(pc, _) =>
      Retry(match pc case Asked(only, expected) => RetryPc.Entered(only, expected) case _ => Finished, locks)
    case Stop(pc, _) =>
      if pc.Waiting? then Stop(StopPc.Entered, locks)
      else if pc.Revoked? then Stop(Draining, locks) else Stop(Closed, {})
  }

  // ---------------------------------------------------------------- shared state

  datatype Permit = Permit(running: bool, keys: set<string>, generation: nat) {
    predicate Allows(key: string, revision: nat) {
      running && generation == revision && key in keys
    }
  }

  /** A mutation that got past its revision bump. */
  datatype Mutation = Mutation(expected: Option<nat>, revision: nat)

  /** `published` is the revision of the latest permit update by a running service and
      `unlisted` says that since then an edit changed the membership the permit knows and the
      reread after it failed; both are auxiliary. */
  datatype State = State(
    tasks: map<Tid, Task>,
    permit: Permit,
    revision: nat,
    settings: C.Settings,
    doc: W.Doc,
    published: nat,
    unlisted: bool,
    mutations: seq<Mutation>)

  predicate Free(s: State, lock: Lock) {
    forall t :: t in s.tasks ==> lock !in s.tasks[t].locks
  }

  function Move(s: State, t: Tid, task: Task): State { s.(tasks := s.tasks[t := task]) }

  /** Rebuild the permit from the watchlist at the current revision. */
  function Publish(s: State): State {
    s.(permit := Permit(true, W.Keys(s.doc), s.revision), published := s.revision, unlisted := false)
  }

  function Bump(s: State, expected: Option<nat>): State {
    s.(revision := s.revision + 1, mutations := s.mutations + [Mutation(expected, s.revision + 1)])
  }

  // ---------------------------------------------------------------- steps of a control request

  /** A request enters under its locks, is checked, bumps the revision, updates the permit,
      writes, and for a watchlist edit updates the permit once more before it answers. */
  datatype Action =
    | Connect(task: Task)
    | Acquire
    | Refuse
    | BumpRevision(loaded: C.Settings)
    | PublishPermit
    | WriteEdit
    | Fail
    | KeepConfig
    | MakePlan(now: Time)
    | Discover(sessions: seq<Session>, protected: set<string>)
    | Choose(key: string)
    | Check
    | SaveAttempt
    | Return
    | Proceed
    | Cancel

  ghost predicate ControlEnabled(s: State, req: Request, pc: ControlPc, a: Action) {
    match a
    case Refuse => pc.Entered?
    case BumpRevision(_) =>
      pc.Entered? && s.revision < U64_MAX && (req.expected.Some? ==> req.expected.value == s.revision)
    case PublishPermit => pc.Bumped? || pc.Written?
    case WriteEdit => pc.Shown?
    case Fail => pc.Shown? || pc.Written?
    case _ => false
  }

  function ControlDo(s: State, t: Tid, req: Request, pc: ControlPc, locks: set<Lock>, a: Action): State {
    match a
    case BumpRevision(_) => Bump(Move(s, t, Control(req, ControlPc.Bumped, locks)), req.expected)
    case PublishPermit =>
      Publish(Move(s, t, if pc.Bumped? then Control(req, ControlPc.Shown, locks) else Control(req, Answered(true), {})))
    case WriteEdit => (
      match req.edit
      case AddTarget(target) => Move(s, t, Control(req, Written, locks)).(doc := W.AddDoc(s.doc, target))
      case RemoveKey(key) => Move(s, t, Control(req, Written, locks)).(doc := W.RemoveDoc(s.doc, key))
      case EditPolicies(policies) =>
        Move(s, t, Control(req, Answered(true), {})).(settings := s.settings.(policies := policies))
      case EditLifecycle(staleAfter) =>
        Move(s, t, Control(req, Answered(true), {})).(settings := s.settings.(staleAfter := staleAfter)))
    case _ =>
      Move(s, t, Control(req, Answered(false), {})).(
        unlisted := if pc.Written? then ChangesMembership(req.edit, s.permit.keys) else s.unlisted)
  }

  // ---------------------------------------------------------------- steps of the loop

  ghost predicate LoopEnabled(s: State, pc: LoopPc, a: Action) {
    match a
    case BumpRevision(_) => pc.Entered? && s.revision < U64_MAX
    case PublishPermit => pc.Bumped?
    case WriteEdit => pc.Shown?
    case KeepConfig => pc.Entered?
    case Fail => pc.Entered? || pc.Listing?
    case MakePlan(_) => pc.Listing?
    case _ => false
  }

  function LoopDo(s: State, t: Tid, pc: LoopPc, locks: set<Lock>, a: Action): State {
    match a
    case BumpRevision(loaded) => Bump(Move(s, t, Loop(LoopPc.Bumped(loaded), locks)), None)
    case PublishPermit =>
      Publish(Move(s, t, if pc.Bumped? then Loop(LoopPc.Shown(pc.loaded), locks) else Loop(pc, locks)))
    case WriteEdit => Move(s, t, Loop(Listing, locks)).(settings := if pc.Shown? then pc.loaded else s.settings)
    case KeepConfig => Move(s, t, Loop(Listing, locks))
    case MakePlan(now) =>
      Publish(Move(s, t, Sender(Job(true, s.revision, s.settings, s.doc, now, [], {}, {}), Planned, {})))
    case _ => Move(s, t, Loop(LoopPc.Idle, {}))
  }

  // ---------------------------------------------------------------- steps of a sender

  /** The keys of a plan that pass the engine's own expiry filter. */
  ghost function Sendable(job: Job): (keys: set<string>)
    ensures keys <= W.Keys(job.doc)
  {
    set k | k in W.Keys(job.doc)
         && W.MaySend(W.EntryOf(job.doc, k), job.sessions, job.protected, W.Cutoff(job.now, job.settings.staleAfter))
  }

  ghost predicate SenderEnabled(s: State, job: Job, pc: SenderPc, a: Action) {
    match a
    case Discover(sessions, protected) => pc.Discovering? && W.ProtectsUncertain(sessions, protected)
    case Choose(key) =>
      && pc.Choosing? && key in job.targets && s.permit.Allows(key, job.revision)
      && (!job.automatic ==> key in W.Keys(s.doc))
    case Check => pc.Guarded?
    case SaveAttempt => pc.Recorded?
    case Return => pc.Resuming?
    case Proceed => pc.Accepted? || pc.Spawned? || pc.Marked? || (pc.Choosing? && job.automatic)
    case Fail =>
      pc.Discovering? || pc.Choosing? || pc.Recorded? || pc.Comparing? || pc.Listed? || pc.Marked?
    case WriteEdit => pc.Comparing? && s.revision == job.revision && s.permit.generation == job.revision
    case PublishPermit => pc.Reconciled? || pc.Recounted? || (pc.Listed? && s.doc.targets == job.doc.targets)
    case BumpRevision(_) => pc.Listed? && s.doc.targets != job.doc.targets && s.revision < U64_MAX
    case _ => false
  }

  /** A scan that stops goes back to sleep; a manual operation records its result. */
  function Leave(job: Job): Task { if job.automatic then Loop(LoopPc.Idle, {}) else Retry(Finishing, {}) }

  /** After one target the scan goes on with the next; a manual retry is one attempt. */
  function AfterAttempt(job: Job): Task { if job.automatic then Sender(job, Choosing, {Engine}) else Leave(job) }

  ghost function SenderDo(s: State, t: Tid, job: Job, pc: SenderPc, locks: set<Lock>, a: Action): State {
    match a
    case Discover(sessions, protected) =>
      var found := job.(sessions := sessions, protected := protected);
      Move(s, t, Sender(found.(targets := Sendable(found)), Choosing, locks))
    case Choose(key) => Move(s, t, Sender(job, Wanting(key), locks))
    case Check =>
      Move(s, t, if pc.Guarded? && s.permit.Allows(pc.key, job.revision)
                 then Sender(job, Recorded(pc.key), locks) else AfterAttempt(job))
    case SaveAttempt => Move(s, t, if pc.Recorded? then Sender(job, Resuming(pc.key), locks) else Leave(job))
    case Return => Move(s, t, AfterAttempt(job))
    case Proceed => (
      match pc
      case Accepted => Move(s, t, Sender(job, Spawning, {}))
      case Spawned => Move(s, t, Sender(job, Planned, {}))
      case Marked => Move(s, t, Sender(job, Choosing, {Engine}))
      case _ => Move(s, t, Sender(job, Committing, locks)))
    case WriteEdit =>
      Move(s, t, Sender(job, Reconciled, locks)).(
        doc := W.ReconcileDoc(s.doc, job.sessions, job.now, s.settings.staleAfter, job.protected))
    case PublishPermit => Publish(Move(s, t, if pc.Reconciled? then Sender(job, Listed, locks) else Leave(job)))
    case BumpRevision(_) => Bump(Move(s, t, Sender(job, Recounted, locks)), None)
    case _ => Move(s, t, Leave(job))
  }

  // ---------------------------------------------------------------- manual requests and shutdown

  ghost predicate RetryEnabled(s: State, pc: RetryPc, a: Action) {
    match a
    case Refuse => pc.Entered?
    case MakePlan(_) => pc.Entered? && pc.expected == s.revision
    case Proceed => pc.Finished?
    case _ => false
  }

  function RetryDo(s: State, t: Tid, pc: RetryPc, a: Action): State {
    match a
    case MakePlan(now) =>
      Move(s, t, Sender(Job(false, s.revision, s.settings, s.doc, now, [], {}, if pc.Entered? then {pc.only} else {}),
                        Accepting, {}))
    case _ => Move(s, t, Retry(Over, {}))
  }

  /** The operation tasks that shutdown drains. */
  predicate Drained(task: Task) {
    !(task.Retry? && (task.rpc.Finishing? || task.rpc.Finished?))
    && !(task.Sender? && !task.job.automatic
         && !(task.spc.Accepting? || task.spc.Accepted? || task.spc.Spawning? || task.spc.Spawned?))
  }

  ghost predicate StopEnabled(s: State, pc: StopPc, a: Action) {
    a.Proceed? && (pc.Serving? || pc.Entered? || pc.Captured?
                   || (pc.Draining? && forall u :: u in s.tasks ==> Drained(s.tasks[u])))
  }

  function StopDo(s: State, t: Tid, pc: StopPc, locks: set<Lock>): State {
    match pc
    case Serving => Move(s, t, Stop(Waiting, {}))
    case Entered => Move(s, t, Stop(Captured(W.Keys(s.doc), s.revision + 1), {}))
    case Captured(keys, generation) => Move(s, t, Stop(Revoked, {})).(permit := Permit(false, keys, generation))
    case _ => Move(s, t, Stop(Closing, locks))
  }

  /** The points at which an aborted task may stop: those where it awaits something. */
  predicate Abortable(task: Task) {
    || (task.Loop? && task.lpc.Idle?)
    || (task.Retry? && task.rpc.Finishing?)
    || (task.Sender? && !task.spc.Accepting? && !task.spc.Spawning?
        && (Wants(task).Some? || task.spc.Discovering? || task.spc.Choosing? || task.spc.Resuming?))
  }

  predicate Stopping(s: State) {
    Shutdown in s.tasks && s.tasks[Shutdown].Stop?
    && (s.tasks[Shutdown].tpc.Revoked? || s.tasks[Shutdown].tpc.Draining? || s.tasks[Shutdown].tpc.Closing?)
  }

  ghost predicate Enabled(s: State, t: Tid, a: Action) {
    if a.Connect? then
      t.Connection? && t !in s.tasks && a.task.locks == {}
      && ((a.task.Control? && a.task.cpc.Asked?) || (a.task.Retry? && a.task.rpc.Asked?))
    else
      t in s.tasks &&
      if a.Acquire? then Wants(s.tasks[t]).Some? && Free(s, Wants(s.tasks[t]).value)
      else if a.Cancel? then Stopping(s) && Abortable(s.tasks[t])
      else match s.tasks[t]
           case Control(req, pc, _) => ControlEnabled(s, req, pc, a)
           case Loop(pc, _) => LoopEnabled(s, pc, a)
           case Sender(job, pc, _) => SenderEnabled(s, job, pc, a)
           case Retry(pc, _) => RetryEnabled(s, pc, a)
           case Stop(pc, _) => StopEnabled(s, pc, a)
  }

  ghost function Do(s: State, t: Tid, a: Action): State
    requires Enabled(s, t, a)
  {
    if a.Connect? then Move(s, t, a.task)
    else if a.Acquire? then Move(s, t, Granted(s.tasks[t]))
    else if a.Cancel? then Move(s, t, if t == Scan then Loop(Gone, {}) else Retry(Over, {}))
    else match s.tasks[t]
         case Control(req, pc, locks) => ControlDo(s, t, req, pc, locks, a)
         case Loop(pc, locks) => LoopDo(s, t, pc, locks, a)
         case Sender(job, pc, locks) => SenderDo(s, t, job, pc, locks, a)
         case Retry(pc, _) => RetryDo(s, t, pc, a)
         case Stop(pc, locks) => StopDo(s, t, pc, locks)
  }

  // ---------------------------------------------------------------- what each task knows

  function Needs(req: Request): set<Lock> {
    if NeedsBoundary(req.edit) then {Boundary, Daemon} else {Daemon}
  }

  /** The guards that are alive at each program point. */
  function LocksAt(task: Task): set<Lock> {
    match task
    case Control(req, pc, _) =>
      if pc.Asked? || pc.Answered? then {} else if pc.Bounded? then {Boundary} else Needs(req)
    case Loop(pc, _) => if pc.Idle? || pc.Gone? then {} else {Daemon}
    case Sender(job, pc, _) =>
      if pc.Planned? || pc.Accepting? || pc.Spawning? then {}
      else if pc.Accepted? then {Registry}
      else if pc.Spawned? then {RetryTasks}
      else if pc.Marked? then {Engine, Registry}
      else if pc.Guarded? || pc.Recorded? || pc.Resuming? then {Engine, Boundary}
      else if pc.Comparing? || pc.Reconciled? || pc.Listed? || pc.Recounted? then {Engine, Daemon}
      else {Engine}
    case Retry(pc, _) => if pc.Entered? then {Daemon} else if pc.Finished? then {Registry} else {}
    case Stop(pc, _) =>
      if pc.Entered? then {Daemon} else if pc.Draining? || pc.Closing? then {RetryTasks} else {}
  }

  /** Only the loop plans, reloads and commits; only it carries automatic jobs. */
  predicate BelongsTo(task: Task, t: Tid) {
    && task.locks == LocksAt(task)
    && (match t
        case Scan => task.Loop? || (task.Sender? && task.job.automatic)
        case Shutdown => task.Stop?
        case Connection(_) => task.Control? || task.Retry? || (task.Sender? && !task.job.automatic))
    && (task.Control? && task.cpc.Bounded? ==> NeedsBoundary(task.req.edit))
    && (task.Sender? ==>
          if task.job.automatic
          then !(task.spc.Accepting? || task.spc.Accepted? || task.spc.Spawning? || task.spc.Spawned?
                 || task.spc.Marking? || task.spc.Marked?)
          else !(task.spc.Discovering? || Commits(task.spc)))
  }

  predicate Commits(pc: SenderPc) {
    pc.Committing? || pc.Comparing? || pc.Reconciled? || pc.Listed? || pc.Recounted?
  }

  /** The task has bumped the revision and not yet updated the permit. */
  predicate Unpublished(task: Task) {
    match task
    case Control(_, pc, _) => pc.Bumped?
    case Loop(pc, _) => pc.Bumped?
    case Sender(_, pc, _) => pc.Recounted?
    case _ => false
  }

  /** The task changed the watchlist file and not yet updated the permit. */
  predicate Relisting(task: Task) {
    (task.Control? && task.cpc.Written?) || (task.Sender? && task.spc.Reconciled?)
  }

  /** The task is past its bump and may be about to change settings or membership. */
  predicate InSection(task: Task) {
    Unpublished(task) || (task.Control? && (task.cpc.Shown? || task.cpc.Written?)) || (task.Loop? && task.lpc.Shown?)
  }

  predicate HasKey(pc: SenderPc) { pc.Wanting? || pc.Guarded? || Sending(pc) }

  /** The permit was checked and the send boundary is still held. */
  predicate Sending(pc: SenderPc) { pc.Recorded? || pc.Resuming? }

  /** Until its own commit writes, the plan of a scan is about the current watchlist. */
  predicate PlansAhead(pc: SenderPc) { !pc.Reconciled? && !pc.Listed? && !pc.Recounted? }

  /** At the published revision a job still describes the present. */
  ghost predicate JobIsCurrent(s: State, job: Job, pc: SenderPc) {
    && job.revision <= s.published
    && (job.revision == s.published ==>
          && job.settings == s.settings
          && (job.automatic && PlansAhead(pc) ==> job.doc == s.doc)
          && (HasKey(pc) ==> pc.key in W.Keys(s.doc)))
  }

  /** The engine's targets are the planned ones that passed its expiry filter. */
  ghost predicate Discovered(job: Job) {
    job.targets == Sendable(job) && W.ProtectsUncertain(job.sessions, job.protected)
  }

  ghost predicate SenderInv(s: State, job: Job, pc: SenderPc) {
    && JobIsCurrent(s, job, pc)
    && (HasKey(pc) ==> pc.key in job.targets)
    && (job.automatic && !pc.Planned? && !pc.Discovering? ==> Discovered(job))
    && (Sending(pc) ==>
          && pc.key in W.Keys(s.doc)
          && (job.automatic ==> job.settings.policies == s.settings.policies))
  }

  /** Between its two permit updates a request knows which keys the permit holds. */
  ghost predicate ControlInv(s: State, req: Request, pc: ControlPc) {
    && (pc.Written? && req.edit.RemoveKey? ==> req.edit.key !in W.Keys(s.doc) && req.edit.key in s.doc.excluded)
    && (s.permit.running && pc.Shown? ==> s.permit.keys == W.Keys(s.doc))
    && (s.permit.running && pc.Written? ==> W.Keys(s.doc) == EditedKeys(req.edit, s.permit.keys))
  }

  ghost predicate TaskInv(s: State, t: Tid)
    requires t in s.tasks
  {
    && BelongsTo(s.tasks[t], t)
    && (s.tasks[t].Sender? ==> SenderInv(s, s.tasks[t].job, s.tasks[t].spc))
    && (s.tasks[t].Control? ==> ControlInv(s, s.tasks[t].req, s.tasks[t].cpc))
  }

  ghost predicate Exclusion(s: State) {
    forall t, u :: t in s.tasks && u in s.tasks && t != u ==> s.tasks[t].locks !! s.tasks[u].locks
  }

  /** After a bump no job carries the new revision until the section is over. */
  ghost predicate Fenced(s: State) {
    forall t, u :: t in s.tasks && u in s.tasks && t != u && InSection(s.tasks[t]) && s.tasks[u].Sender? ==>
      s.tasks[u].job.revision < s.revision
  }

  ghost predicate RevisionInv(s: State) {
    && s.published <= s.revision <= s.published + 1
    && (forall t :: t in s.tasks && Unpublished(s.tasks[t]) ==> s.revision == s.published + 1)
    && (s.published != s.revision ==> exists t :: t in s.tasks && Unpublished(s.tasks[t]))
    && Ordered(s.mutations, s.revision)
  }

  ghost predicate PermitInv(s: State) {
    s.permit.running ==>
      && s.permit.generation == s.published
      && ((forall t :: t in s.tasks ==> !Relisting(s.tasks[t])) ==>
            (s.unlisted <==> s.permit.keys != W.Keys(s.doc)))
  }

  /** Revisions in the mutation log increase, and an expected revision was the one replaced. */
  ghost predicate Ordered(log: seq<Mutation>, revision: nat) {
    && (forall i, j :: 0 <= i < j < |log| ==> log[i].revision < log[j].revision)
    && (forall i :: 0 <= i < |log| ==> log[i].revision <= revision)
    && (forall i :: 0 <= i < |log| && log[i].expected.Some? ==> log[i].expected.value + 1 == log[i].revision)
  }

  ghost predicate Inv(s: State) {
    && Scan in s.tasks && Shutdown in s.tasks
    && Exclusion(s)
    && (forall t :: t in s.tasks ==> TaskInv(s, t))
    && Fenced(s)
    && RevisionInv(s)
    && PermitInv(s)
    && W.Valid(s.doc)
  }

  ghost predicate Initial(s: State) {
    && s.tasks == map[Scan := Loop(LoopPc.Idle, {}), Shutdown := Stop(Serving, {})]
    && s.permit == Permit(true, W.Keys(s.doc), s.revision)
    && s.published == s.revision && !s.unlisted && s.mutations == []
    && W.Valid(s.doc)
  }

  lemma InitialInv(s: State)
    requires Initial(s)
    ensures Inv(s)
  {
  }

  // ---------------------------------------------------------------- every step keeps it

  /** The shape of a step: it moves task `t`, whose new guards were held or free before. */
  ghost predicate Moves(s: State, t: Tid, n: State) {
    && t in n.tasks
    && n.tasks == s.tasks[t := n.tasks[t]]
    && BelongsTo(n.tasks[t], t)
    && forall lock :: lock in n.tasks[t].locks ==> (t in s.tasks && lock in s.tasks[t].locks) || Free(s, lock)
  }

  lemma ControlMoves(s: State, t: Tid, a: Action)
    requires t in s.tasks && BelongsTo(s.tasks[t], t) && s.tasks[t].Control?
    requires ControlEnabled(s, s.tasks[t].req, s.tasks[t].cpc, a)
    ensures Moves(s, t, ControlDo(s, t, s.tasks[t].req, s.tasks[t].cpc, s.tasks[t].locks, a))
  {
  }

  lemma LoopMoves(s: State, t: Tid, a: Action)
    requires t in s.tasks && BelongsTo(s.tasks[t], t) && s.tasks[t].Loop?
    requires LoopEnabled(s, s.tasks[t].lpc, a)
    ensures Moves(s, t, LoopDo(s, t, s.tasks[t].lpc, s.tasks[t].locks, a))
  {
  }

  lemma SenderMovesInEngine(s: State, t: Tid, a: Action)
    requires t in s.tasks && BelongsTo(s.tasks[t], t) && s.tasks[t].Sender?
    requires SenderEnabled(s, s.tasks[t].job, s.tasks[t].spc, a)
    requires a.Discover? || a.Choose? || a.Check? || a.SaveAttempt? || a.Return?
    ensures Moves(s, t, SenderDo(s, t, s.tasks[t].job, s.tasks[t].spc, s.tasks[t].locks, a))
  {
    if a.Check? || a.Return? {
      SenderMovesPastSend(s, t, a);
    }
  }

  lemma SenderMovesPastSend(s: State, t: Tid, a: Action)
    requires t in s.tasks && BelongsTo(s.tasks[t], t) && s.tasks[t].Sender?
    requires SenderEnabled(s, s.tasks[t].job, s.tasks[t].spc, a) && (a.Check? || a.Return?)
    ensures Moves(s, t, SenderDo(s, t, s.tasks[t].job, s.tasks[t].spc, s.tasks[t].locks, a))
  {
  }

  lemma SenderMovesOn(s: State, t: Tid, a: Action)
    requires t in s.tasks && BelongsTo(s.tasks[t], t) && s.tasks[t].Sender?
    requires SenderEnabled(s, s.tasks[t].job, s.tasks[t].spc, a)
    requires a.Proceed? || a.Fail? || a.WriteEdit? || a.PublishPermit? || a.BumpRevision?
    ensures Moves(s, t, SenderDo(s, t, s.tasks[t].job, s.tasks[t].spc, s.tasks[t].locks, a))
  {
    if a.Proceed? {
      SenderProceeds(s, t);
    }
  }

  lemma SenderProceeds(s: State, t: Tid)
    requires t in s.tasks && BelongsTo(s.tasks[t], t) && s.tasks[t].Sender?
    requires SenderEnabled(s, s.tasks[t].job, s.tasks[t].spc, Proceed)
    ensures Moves(s, t, SenderDo(s, t, s.tasks[t].job, s.tasks[t].spc, s.tasks[t].locks, Proceed))
  {
  }

  lemma RestMoves(s: State, t: Tid, a: Action)
    requires Enabled(s, t, a)
    requires t in s.tasks ==> BelongsTo(s.tasks[t], t) && (a.Cancel? || s.tasks[t].Retry? || s.tasks[t].Stop?)
    requires !a.Acquire?
    ensures Moves(s, t, Do(s, t, a))
  {
  }

  lemma AcquireMoves(s: State, t: Tid)
    requires Enabled(s, t, Acquire) && BelongsTo(s.tasks[t], t)
    ensures Moves(s, t, Do(s, t, Acquire))
  {
  }

  lemma MovesKeepExclusion(s: State, t: Tid, n: State)
    requires Exclusion(s) && Moves(s, t, n)
    ensures Exclusion(n)
  {
  }

  /** Whoever holds the daemon lock is alone in its section. */
  lemma DaemonHolderIsAlone(s: State, t: Tid)
    requires Inv(s) && t in s.tasks && Daemon in s.tasks[t].locks
    ensures forall u :: u in s.tasks && u != t ==> !InSection(s.tasks[u]) && !Relisting(s.tasks[u])
    ensures !Unpublished(s.tasks[t]) ==> s.revision == s.published
    ensures !Relisting(s.tasks[t]) && s.permit.running ==> (s.unlisted <==> s.permit.keys != W.Keys(s.doc))
  {
    forall u | u in s.tasks && u != t ensures !InSection(s.tasks[u]) && !Relisting(s.tasks[u]) {
      assert TaskInv(s, u);
      assert Daemon !in s.tasks[u].locks;
    }
  }

  /** A move that leaves the shared state alone and neither opens nor closes a section. */
  ghost predicate LocalMove(s: State, t: Tid, n: State) {
    && Moves(s, t, n)
    && n == s.(tasks := n.tasks, unlisted := n.unlisted)
    && (InSection(n.tasks[t]) ==> t in s.tasks && InSection(s.tasks[t]))
    && !Unpublished(n.tasks[t]) && (t in s.tasks ==> !Unpublished(s.tasks[t]))
    && !Relisting(n.tasks[t])
    && (if t in s.tasks && Relisting(s.tasks[t])
        then s.permit.running ==> (n.unlisted <==> s.permit.keys != W.Keys(s.doc))
        else n.unlisted == s.unlisted)
    && (n.tasks[t].Sender? ==>
          t in s.tasks && (if s.tasks[t].Sender?
                           then n.tasks[t].job.revision == s.tasks[t].job.revision
                           else Daemon in s.tasks[t].locks))
  }

  lemma LocalMoveKeepsTasks(s: State, t: Tid, n: State)
    requires Inv(s) && LocalMove(s, t, n) && TaskInv(n, t)
    ensures Exclusion(n) && forall u :: u in n.tasks ==> TaskInv(n, u)
  {
    MovesKeepExclusion(s, t, n);
    forall u | u in n.tasks && u != t ensures TaskInv(n, u) {
      assert TaskInv(s, u);
    }
  }

  lemma LocalMoveKeepsFence(s: State, t: Tid, n: State)
    requires Inv(s) && LocalMove(s, t, n)
    ensures Fenced(n)
  {
    if t in s.tasks && Daemon in s.tasks[t].locks {
      DaemonHolderIsAlone(s, t);
    }
  }

  lemma LocalMoveKeepsShared(s: State, t: Tid, n: State)
    requires Inv(s) && LocalMove(s, t, n)
    ensures RevisionInv(n) && PermitInv(n)
  {
    if s.published != s.revision {
      var u :| u in s.tasks && Unpublished(s.tasks[u]);
      assert n.tasks[u] == s.tasks[u];
    }
    if s.permit.running && forall u :: u in n.tasks ==> !Relisting(n.tasks[u]) {
      forall u | u in s.tasks && u != t ensures !Relisting(s.tasks[u]) {
        assert n.tasks[u] == s.tasks[u];
      }
    }
  }

  lemma LocalMoveKeeps(s: State, t: Tid, n: State)
    requires Inv(s) && LocalMove(s, t, n) && TaskInv(n, t)
    ensures Inv(n)
  {
    LocalMoveKeepsTasks(s, t, n);
    LocalMoveKeepsFence(s, t, n);
    LocalMoveKeepsShared(s, t, n);
  }

  /** A revision bump under the daemon lock. */
  ghost predicate Bumps(s: State, t: Tid, n: State, expected: Option<nat>) {
    && Moves(s, t, n) && TaskInv(n, t)
    && t in s.tasks && Daemon in s.tasks[t].locks && !Unpublished(s.tasks[t]) && !Relisting(s.tasks[t])
    && n == Bump(s, expected).(tasks := n.tasks)
    && (expected.Some? ==> expected.value == s.revision)
    && Unpublished(n.tasks[t])
    && (n.tasks[t].Sender? ==> s.tasks[t].Sender? && n.tasks[t].job == s.tasks[t].job)
  }

  lemma BumpKeeps(s: State, t: Tid, n: State, expected: Option<nat>)
    requires Inv(s) && Bumps(s, t, n, expected)
    ensures Inv(n)
  {
    MovesKeepExclusion(s, t, n);
    DaemonHolderIsAlone(s, t);
    forall u | u in n.tasks && u != t ensures TaskInv(n, u) {
      assert TaskInv(s, u);
    }
  }

  /** A permit update under the daemon lock. */
  ghost predicate Publishes(s: State, t: Tid, n: State) {
    && Moves(s, t, n) && TaskInv(n, t)
    && t in s.tasks && Daemon in s.tasks[t].locks
    && n == Publish(s).(tasks := n.tasks)
    && !Unpublished(n.tasks[t]) && !Relisting(n.tasks[t])
    && (InSection(n.tasks[t]) ==> InSection(s.tasks[t]))
  }

  lemma PublishKeepsOthers(s: State, t: Tid, n: State, u: Tid)
    requires Inv(s) && Publishes(s, t, n) && u in n.tasks && u != t
    ensures TaskInv(n, u)
  {
    assert TaskInv(s, u);
    DaemonHolderIsAlone(s, t);
  }

  lemma PublishKeeps(s: State, t: Tid, n: State)
    requires Inv(s) && Publishes(s, t, n)
    ensures Inv(n)
  {
    MovesKeepExclusion(s, t, n);
    forall u | u in n.tasks && u != t ensures TaskInv(n, u) {
      PublishKeepsOthers(s, t, n, u);
    }
    PublishKeepsFence(s, t, n);
  }

  lemma PublishKeepsFence(s: State, t: Tid, n: State)
    requires Inv(s) && Publishes(s, t, n)
    ensures Fenced(n) && RevisionInv(n) && PermitInv(n)
  {
    DaemonHolderIsAlone(s, t);
  }

  /** A write to the watchlist or the settings under the daemon lock. What it may not do is
      take a key away from, or change the policies of, a send that is in flight. */
  lemma WriteKeeps(s: State, t: Tid, n: State)
    requires Inv(s) && Moves(s, t, n) && TaskInv(n, t)
    requires t in s.tasks && Daemon in s.tasks[t].locks && !Unpublished(s.tasks[t])
    requires n == s.(tasks := n.tasks, doc := n.doc, settings := n.settings)
    requires W.Valid(n.doc)
    requires n.doc == s.doc || Relisting(n.tasks[t])
    requires !Unpublished(n.tasks[t]) && (InSection(n.tasks[t]) ==> InSection(s.tasks[t])) && !Relisting(s.tasks[t])
    requires n.tasks[t].Sender? ==> s.tasks[t].Sender? && n.tasks[t].job == s.tasks[t].job
    requires forall u :: u in s.tasks && u != t && s.tasks[u].Sender? ==>
               SenderInv(n, s.tasks[u].job, s.tasks[u].spc)
    ensures Inv(n)
  {
    MovesKeepExclusion(s, t, n);
    DaemonHolderIsAlone(s, t);
    forall u | u in n.tasks && u != t ensures TaskInv(n, u) {
      assert TaskInv(s, u);
    }
  }

  lemma ControlWrites(s: State, t: Tid)
    requires t in s.tasks && TaskInv(s, t) && s.tasks[t].Control? && Enabled(s, t, WriteEdit) && W.Valid(s.doc)
    ensures var n := Do(s, t, WriteEdit);
            Moves(s, t, n) && TaskInv(n, t) && W.Valid(n.doc)
  {
    ControlMoves(s, t, WriteEdit);
    match s.tasks[t].req.edit {
      case AddTarget(target) => W.AddMembership(s.doc, target);
      case RemoveKey(key) => W.RemoveMembership(s.doc, key);
      case _ =>
    }
  }

  lemma OtherJobsAreOld(s: State, t: Tid, u: Tid)
    requires Inv(s) && Enabled(s, t, WriteEdit) && s.tasks[t].Control?
    requires u in s.tasks && u != t && s.tasks[u].Sender?
    ensures s.tasks[u].job.revision < s.published
  {
    assert TaskInv(s, t);
    DaemonHolderIsAlone(s, t);
  }

  /** An edit that waits for the boundary finds no send in flight; the others change neither the
      policies nor the membership of a key that is sent to. */
  lemma EditSparesSender(s: State, t: Tid, u: Tid)
    requires Inv(s) && Enabled(s, t, WriteEdit) && s.tasks[t].Control?
    requires u in s.tasks && u != t && s.tasks[u].Sender?
    ensures SenderInv(Do(s, t, WriteEdit), s.tasks[u].job, s.tasks[u].spc)
  {
    assert TaskInv(s, u);
    OtherJobsAreOld(s, t, u);
    InFlightIsSpared(s, t, u);
    OldJobIsSpared(s, Do(s, t, WriteEdit), s.tasks[u].job, s.tasks[u].spc);
  }

  lemma BoundaryStopsSends(s: State, t: Tid, u: Tid)
    requires Inv(s) && t in s.tasks && Boundary in s.tasks[t].locks
    requires u in s.tasks && u != t && s.tasks[u].Sender?
    ensures !Sending(s.tasks[u].spc)
  {
    assert TaskInv(s, u);
    assert s.tasks[u].locks !! s.tasks[t].locks;
  }

  lemma InFlightIsSpared(s: State, t: Tid, u: Tid)
    requires Inv(s) && Enabled(s, t, WriteEdit) && s.tasks[t].Control?
    requires u in s.tasks && u != t && s.tasks[u].Sender?
    ensures var n := Do(s, t, WriteEdit);
            Sending(s.tasks[u].spc) ==> W.Keys(s.doc) <= W.Keys(n.doc) && n.settings.policies == s.settings.policies
  {
    var edit := s.tasks[t].req.edit;
    if NeedsBoundary(edit) {
      assert TaskInv(s, t);
      BoundaryStopsSends(s, t, u);
    } else if edit.AddTarget? {
      W.AddMembership(s.doc, edit.target);
    }
  }

  lemma OldJobIsSpared(s: State, n: State, job: Job, pc: SenderPc)
    requires SenderInv(s, job, pc) && n.published == s.published && job.revision < s.published
    requires Sending(pc) ==> W.Keys(s.doc) <= W.Keys(n.doc) && n.settings.policies == s.settings.policies
    ensures SenderInv(n, job, pc)
  {
  }

  lemma ControlWriteKeeps(s: State, t: Tid)
    requires Inv(s) && Enabled(s, t, WriteEdit) && s.tasks[t].Control?
    ensures Inv(Do(s, t, WriteEdit))
  {
    assert TaskInv(s, t);
    ControlWrites(s, t);
    DaemonHolderIsAlone(s, t);
    forall u | u in s.tasks && u != t && s.tasks[u].Sender?
      ensures SenderInv(Do(s, t, WriteEdit), s.tasks[u].job, s.tasks[u].spc)
    {
      EditSparesSender(s, t, u);
    }
    WriteKeeps(s, t, Do(s, t, WriteEdit));
  }

  lemma LoopWriteKeeps(s: State, t: Tid)
    requires Inv(s) && Enabled(s, t, WriteEdit) && s.tasks[t].Loop?
    ensures Inv(Do(s, t, WriteEdit))
  {
    var n := Do(s, t, WriteEdit);
    assert TaskInv(s, t);
    LoopMoves(s, t, WriteEdit);
    DaemonHolderIsAlone(s, t);
    forall u | u in s.tasks && u != t && s.tasks[u].Sender?
      ensures SenderInv(n, s.tasks[u].job, s.tasks[u].spc)
    {
      assert TaskInv(s, u);
      assert s.tasks[u].job.revision < s.revision;
    }
    WriteKeeps(s, t, n);
  }

  lemma CommitWriteKeeps(s: State, t: Tid)
    requires Inv(s) && Enabled(s, t, WriteEdit) && s.tasks[t].Sender?
    ensures Inv(Do(s, t, WriteEdit))
  {
    var n := Do(s, t, WriteEdit);
    var job := s.tasks[t].job;
    assert TaskInv(s, t);
    SenderMovesOn(s, t, WriteEdit);
    W.ReconcileKeepsValid(s.doc, job.sessions, job.now, s.settings.staleAfter, job.protected);
    DaemonHolderIsAlone(s, t);
    forall u | u in s.tasks && u != t && s.tasks[u].Sender?
      ensures SenderInv(n, s.tasks[u].job, s.tasks[u].spc)
    {
      assert TaskInv(s, u);
      assert s.tasks[u].locks !! s.tasks[t].locks;
      assert !HasKey(s.tasks[u].spc);
    }
    WriteKeeps(s, t, n);
  }

  // What each kind of step does to its own task, from what that task knows.

  lemma ControlStepIsLocal(s: State, t: Tid, a: Action)
    requires t in s.tasks && TaskInv(s, t) && s.tasks[t].Control? && (a.Refuse? || a.Fail?) && Enabled(s, t, a)
    ensures LocalMove(s, t, Do(s, t, a)) && TaskInv(Do(s, t, a), t)
  {
    ControlMoves(s, t, a);
  }

  lemma LoopStepIsLocal(s: State, t: Tid, a: Action)
    requires t in s.tasks && TaskInv(s, t) && s.tasks[t].Loop? && (a.KeepConfig? || a.Fail?) && Enabled(s, t, a)
    ensures LocalMove(s, t, Do(s, t, a)) && TaskInv(Do(s, t, a), t)
  {
    LoopMoves(s, t, a);
  }

  lemma DiscoverIsLocal(s: State, t: Tid, a: Action)
    requires t in s.tasks && TaskInv(s, t) && s.tasks[t].Sender? && Enabled(s, t, a) && a.Discover?
    ensures LocalMove(s, t, Do(s, t, a)) && TaskInv(Do(s, t, a), t)
  {
    SenderMovesInEngine(s, t, a);
  }

  lemma SenderStepIsLocalInEngine(s: State, t: Tid, a: Action)
    requires t in s.tasks && TaskInv(s, t) && s.tasks[t].Sender? && Enabled(s, t, a)
    requires a.Discover? || a.Choose? || a.SaveAttempt? || a.Return?
    ensures LocalMove(s, t, Do(s, t, a)) && TaskInv(Do(s, t, a), t)
  {
    if a.Discover? {
      DiscoverIsLocal(s, t, a);
    } else {
      SenderMovesInEngine(s, t, a);
    }
  }

  /** The check inside the boundary: the published permit vouches for membership and policy. */
  lemma CheckIsLocal(s: State, t: Tid)
    requires t in s.tasks && TaskInv(s, t) && s.tasks[t].Sender? && Enabled(s, t, Check)
    requires s.permit.running ==> s.permit.generation == s.published
    ensures LocalMove(s, t, Do(s, t, Check)) && TaskInv(Do(s, t, Check), t)
  {
    SenderMovesInEngine(s, t, Check);
  }

  lemma SenderStepIsLocalOn(s: State, t: Tid, a: Action)
    requires t in s.tasks && TaskInv(s, t) && s.tasks[t].Sender? && Enabled(s, t, a)
    requires a.Proceed? || a.Fail?
    ensures LocalMove(s, t, Do(s, t, a)) && TaskInv(Do(s, t, a), t)
  {
    SenderMovesOn(s, t, a);
  }

  lemma WaitIsLocal(s: State, t: Tid, a: Action)
    requires t in s.tasks && TaskInv(s, t) && (a.Acquire? || a.Cancel?) && Enabled(s, t, a)
    ensures LocalMove(s, t, Do(s, t, a)) && TaskInv(Do(s, t, a), t)
  {
    if a.Acquire? {
      AcquireMoves(s, t);
    } else {
      RestMoves(s, t, a);
    }
  }

  lemma RetryIsLocal(s: State, t: Tid, a: Action)
    requires t in s.tasks ==> TaskInv(s, t) && s.tasks[t].Retry?
    requires a.MakePlan? ==> s.revision == s.published
    requires !a.Acquire? && !a.Cancel? && Enabled(s, t, a)
    ensures LocalMove(s, t, Do(s, t, a)) && TaskInv(Do(s, t, a), t)
  {
    RestMoves(s, t, a);
  }

  lemma StopKeeps(s: State, t: Tid, a: Action)
    requires Inv(s) && Enabled(s, t, a) && t in s.tasks && s.tasks[t].Stop? && !a.Acquire? && !a.Cancel?
    ensures Inv(Do(s, t, a))
  {
    var n := Do(s, t, a);
    assert TaskInv(s, t);
    RestMoves(s, t, a);
    var same := n.(permit := s.permit);
    LocalMoveKeeps(s, t, same);
    StoppedKeeps(same, n);
  }

  /** Stopping the permit takes nothing away that a task relies on. */
  lemma StoppedKeeps(s: State, n: State)
    requires Inv(s) && n == s.(permit := n.permit) && (n.permit == s.permit || !n.permit.running)
    ensures Inv(n)
  {
    forall u | u in n.tasks ensures TaskInv(n, u) {
      assert TaskInv(s, u);
    }
  }

  lemma BumpStepKeeps(s: State, t: Tid, a: Action)
    requires Inv(s) && Enabled(s, t, a) && a.BumpRevision?
    ensures Inv(Do(s, t, a))
  {
    assert TaskInv(s, t);
    var expected := if s.tasks[t].Control? then s.tasks[t].req.expected else None;
    if s.tasks[t].Control? {
      ControlBumps(s, t, a);
    } else {
      OtherBumps(s, t, a);
    }
    BumpKeeps(s, t, Do(s, t, a), expected);
  }

  lemma ControlBumps(s: State, t: Tid, a: Action)
    requires t in s.tasks && TaskInv(s, t) && s.tasks[t].Control? && Enabled(s, t, a) && a.BumpRevision?
    ensures Bumps(s, t, Do(s, t, a), s.tasks[t].req.expected)
  {
    ControlMoves(s, t, a);
  }

  lemma OtherBumps(s: State, t: Tid, a: Action)
    requires t in s.tasks && TaskInv(s, t) && !s.tasks[t].Control? && Enabled(s, t, a) && a.BumpRevision?
    ensures Bumps(s, t, Do(s, t, a), None)
  {
    if s.tasks[t].Loop? {
      LoopMoves(s, t, a);
    } else {
      SenderMovesOn(s, t, a);
    }
  }

  lemma PublishStepKeeps(s: State, t: Tid, a: Action)
    requires Inv(s) && Enabled(s, t, a) && a.PublishPermit?
    ensures Inv(Do(s, t, a))
  {
    assert TaskInv(s, t);
    DaemonHolderIsAlone(s, t);
    if s.tasks[t].Sender? {
      SenderPublishes(s, t, a);
    } else {
      OtherPublishes(s, t, a);
    }
    PublishKeeps(s, t, Do(s, t, a));
  }

  lemma SenderPublishes(s: State, t: Tid, a: Action)
    requires t in s.tasks && TaskInv(s, t) && s.tasks[t].Sender? && Enabled(s, t, a) && a.PublishPermit?
    requires s.revision == s.published + if Unpublished(s.tasks[t]) then 1 else 0
    ensures Publishes(s, t, Do(s, t, a))
  {
    SenderMovesOn(s, t, a);
  }

  lemma OtherPublishes(s: State, t: Tid, a: Action)
    requires t in s.tasks && TaskInv(s, t) && !s.tasks[t].Sender? && Enabled(s, t, a)
    requires a.PublishPermit? || (a.MakePlan? && s.tasks[t].Loop? && s.revision == s.published)
    ensures Publishes(s, t, Do(s, t, a))
  {
    if s.tasks[t].Control? {
      ControlMoves(s, t, a);
    } else {
      LoopMoves(s, t, a);
    }
  }

  lemma PlanKeeps(s: State, t: Tid, a: Action)
    requires Inv(s) && Enabled(s, t, a) && a.MakePlan? && s.tasks[t].Loop?
    ensures Inv(Do(s, t, a))
  {
    assert TaskInv(s, t);
    DaemonHolderIsAlone(s, t);
    OtherPublishes(s, t, a);
    PublishKeeps(s, t, Do(s, t, a));
  }

  lemma WriteStepKeeps(s: State, t: Tid)
    requires Inv(s) && Enabled(s, t, WriteEdit)
    ensures Inv(Do(s, t, WriteEdit))
  {
    if s.tasks[t].Control? {
      ControlWriteKeeps(s, t);
    } else if s.tasks[t].Loop? {
      LoopWriteKeeps(s, t);
    } else {
      CommitWriteKeeps(s, t);
    }
  }

  lemma LocalStep(s: State, t: Tid, a: Action)
    requires Inv(s) && Enabled(s, t, a)
    requires !a.BumpRevision? && !a.PublishPermit? && !a.WriteEdit?
    requires t in s.tasks && !a.Acquire? && !a.Cancel? ==> !s.tasks[t].Stop? && !(a.MakePlan? && s.tasks[t].Loop?)
    ensures LocalMove(s, t, Do(s, t, a)) && TaskInv(Do(s, t, a), t)
  {
    assert t in s.tasks ==> TaskInv(s, t);
    if a.Acquire? || a.Cancel? {
      WaitIsLocal(s, t, a);
    } else if t !in s.tasks || s.tasks[t].Retry? {
      if a.MakePlan? || a.Refuse? {
        DaemonHolderIsAlone(s, t);
      }
      RetryIsLocal(s, t, a);
    } else if s.tasks[t].Control? {
      ControlStepIsLocal(s, t, a);
    } else if s.tasks[t].Loop? {
      LoopStepIsLocal(s, t, a);
    } else if a.Check? {
      CheckIsLocal(s, t);
    } else if a.Proceed? || a.Fail? {
      SenderStepIsLocalOn(s, t, a);
    } else {
      SenderStepIsLocalInEngine(s, t, a);
    }
  }

  lemma StepKeepsInv(s: State, t: Tid, a: Action)
    requires Inv(s) && Enabled(s, t, a)
    ensures Inv(Do(s, t, a))
  {
    if a.BumpRevision? {
      BumpStepKeeps(s, t, a);
    } else if a.PublishPermit? {
      PublishStepKeeps(s, t, a);
    } else if a.WriteEdit? {
      WriteStepKeeps(s, t);
    } else if t in s.tasks && !a.Acquire? && !a.Cancel? && s.tasks[t].Stop? {
      StopKeeps(s, t, a);
    } else if t in s.tasks && a.MakePlan? && s.tasks[t].Loop? {
      PlanKeeps(s, t, a);
    } else {
      LocalStep(s, t, a);
      LocalMoveKeeps(s, t, Do(s, t, a));
    }
  }

  // ---------------------------------------------------------------- runs

  type Steps = seq<(Tid, Action)>

  /** Any interleaving: each step is enabled where it is taken. */
  ghost predicate Run(s: State, steps: Steps)
    decreases |steps|
  {
    steps == [] || (Enabled(s, steps[0].0, steps[0].1) && Run(Do(s, steps[0].0, steps[0].1), steps[1..]))
  }

  ghost function After(s: State, steps: Steps): State
    requires Run(s, steps)
    decreases |steps|
  {
    if steps == [] then s else After(Do(s, steps[0].0, steps[0].1), steps[1..])
  }

  lemma {:induction false} RunKeepsInv(s: State, steps: Steps)
    requires Inv(s) && Run(s, steps)
    ensures Inv(After(s, steps))
    decreases |steps|
  {
    if steps == [] {
    } else {
      StepKeepsInv(s, steps[0].0, steps[0].1);
      RunKeepsInv(Do(s, steps[0].0, steps[0].1), steps[1..]);
    }
  }

  // ---------------------------------------------------------------- revocation

  /** Nothing sends, or can be authorized to send, to the key. */
  ghost predicate IsRevoked(s: State, key: string) {
    && key in s.doc.excluded
    && (s.permit.running ==> key !in s.permit.keys)
    && (forall t :: t in s.tasks && s.tasks[t].Sender? && Sending(s.tasks[t].spc) ==> s.tasks[t].spc.key != key)
  }

  /** The step adds the key to the watchlist by hand. */
  predicate AddsKey(s: State, t: Tid, a: Action, key: string) {
    && a.WriteEdit? && t in s.tasks && s.tasks[t].Control?
    && s.tasks[t].req.edit.AddTarget? && s.tasks[t].req.edit.target.Key() == key
  }

  /** When a removal is about to be acknowledged, its key is already revoked. */
  lemma RemovalRevokes(s: State, t: Tid, key: string)
    requires Inv(s) && t in s.tasks && s.tasks[t].Control?
    requires s.tasks[t].req.edit == RemoveKey(key) && s.tasks[t].cpc.Written?
    ensures Enabled(s, t, PublishPermit)
    ensures Do(s, t, PublishPermit).tasks[t] == Control(s.tasks[t].req, Answered(true), {})
    ensures IsRevoked(Do(s, t, PublishPermit), key)
  {
    assert TaskInv(s, t);
    forall u | u in s.tasks && u != t && s.tasks[u].Sender? ensures !Sending(s.tasks[u].spc) {
      assert TaskInv(s, u);
      assert s.tasks[u].locks !! s.tasks[t].locks;
    }
  }

  lemma EditKeepsExcluded(doc: W.Doc, edit: Edit, key: string)
    requires key in doc.excluded && !(edit.AddTarget? && edit.target.Key() == key)
    ensures edit.AddTarget? ==> key in W.AddDoc(doc, edit.target).excluded
    ensures edit.RemoveKey? ==> key in W.RemoveDoc(doc, edit.key).excluded
  {
  }

  lemma EditKeepsRevoked(s: State, t: Tid, key: string)
    requires Enabled(s, t, WriteEdit) && t in s.tasks && s.tasks[t].Control?
    requires IsRevoked(s, key) && !AddsKey(s, t, WriteEdit, key)
    ensures IsRevoked(Do(s, t, WriteEdit), key)
  {
    EditKeepsExcluded(s.doc, s.tasks[t].req.edit, key);
  }

  lemma ControlKeepsRevoked(s: State, t: Tid, a: Action, key: string)
    requires Enabled(s, t, a) && t in s.tasks && s.tasks[t].Control? && !a.Acquire? && !a.Cancel? && !a.WriteEdit?
    requires W.Valid(s.doc) && IsRevoked(s, key)
    ensures IsRevoked(Do(s, t, a), key)
  {
  }

  lemma CommitKeepsRevoked(s: State, t: Tid, key: string)
    requires Inv(s) && Enabled(s, t, WriteEdit) && s.tasks[t].Sender? && IsRevoked(s, key)
    ensures IsRevoked(Do(s, t, WriteEdit), key)
  {
    var job := s.tasks[t].job;
    W.ReconcileMembership(s.doc, job.sessions, job.now, s.settings.staleAfter, job.protected, key);
  }

  /** A send is authorized by the permit only, which no longer has the key. */
  lemma SenderKeepsRevoked(s: State, t: Tid, a: Action, key: string)
    requires Enabled(s, t, a) && t in s.tasks && s.tasks[t].Sender? && !a.Acquire? && !a.Cancel? && !a.WriteEdit?
    requires W.Valid(s.doc) && IsRevoked(s, key)
    ensures IsRevoked(Do(s, t, a), key)
  {
  }

  lemma OtherKeepsRevoked(s: State, t: Tid, a: Action, key: string)
    requires W.Valid(s.doc) && Enabled(s, t, a) && IsRevoked(s, key)
    requires t in s.tasks ==> s.tasks[t].Loop? || s.tasks[t].Retry? || s.tasks[t].Stop?
    requires !a.Acquire? && !a.Cancel?
    ensures IsRevoked(Do(s, t, a), key)
  {
  }

  lemma WaitKeepsRevoked(s: State, t: Tid, a: Action, key: string)
    requires W.Valid(s.doc) && Enabled(s, t, a) && IsRevoked(s, key)
    requires a.Acquire? || a.Cancel?
    ensures IsRevoked(Do(s, t, a), key)
  {
  }

  lemma StepKeepsRevoked(s: State, t: Tid, a: Action, key: string)
    requires Inv(s) && Enabled(s, t, a)
    requires IsRevoked(s, key) && !AddsKey(s, t, a, key)
    ensures IsRevoked(Do(s, t, a), key)
  {
    if a.Acquire? || a.Cancel? {
      WaitKeepsRevoked(s, t, a, key);
    } else if t in s.tasks && s.tasks[t].Control? {
      if a.WriteEdit? {
        EditKeepsRevoked(s, t, key);
      } else {
        ControlKeepsRevoked(s, t, a, key);
      }
    } else if t in s.tasks && s.tasks[t].Sender? {
      if a.WriteEdit? {
        CommitKeepsRevoked(s, t, key);
      } else {
        SenderKeepsRevoked(s, t, a, key);
      }
    } else {
      OtherKeepsRevoked(s, t, a, key);
    }
  }

  ghost predicate NeverAdds(s: State, steps: Steps, key: string)
    requires Run(s, steps)
    decreases |steps|
  {
    steps == [] || (!AddsKey(s, steps[0].0, steps[0].1, key)
                    && NeverAdds(Do(s, steps[0].0, steps[0].1), steps[1..], key))
  }

  /** Whatever the automatic loop, manual retries and other requests do after a removal was
      acknowledged, no resume for its key is in progress or starts until the key is added
      again. */
  lemma {:induction false} RemovalIsFinal(s: State, steps: Steps, key: string)
    requires Inv(s) && IsRevoked(s, key)
    requires Run(s, steps) && NeverAdds(s, steps, key)
    ensures IsRevoked(After(s, steps), key)
    decreases |steps|
  {
    if steps == [] {
    } else {
      StepKeepsRevoked(s, steps[0].0, steps[0].1, key);
      StepKeepsInv(s, steps[0].0, steps[0].1);
      RemovalIsFinal(Do(s, steps[0].0, steps[0].1), steps[1..], key);
    }
  }

  /** From the start of the service: a removal that is acknowledged at some moment of any run is
      final for the rest of it, until the key is added again. */
  lemma AcknowledgedRemovalIsFinal(s: State, before: Steps, t: Tid, key: string, rest: Steps)
    requires Initial(s) && Run(s, before)
    requires var n := After(s, before);
             t in n.tasks && n.tasks[t].Control? && n.tasks[t].req.edit == RemoveKey(key) && n.tasks[t].cpc.Written?
    requires Enabled(After(s, before), t, PublishPermit)
    requires var acknowledged := Do(After(s, before), t, PublishPermit);
             Run(acknowledged, rest) && NeverAdds(acknowledged, rest, key)
    ensures IsRevoked(After(Do(After(s, before), t, PublishPermit), rest), key)
  {
    InitialInv(s);
    RunKeepsInv(s, before);
    var n := After(s, before);
    RemovalRevokes(n, t, key);
    StepKeepsInv(n, t, PublishPermit);
    RemovalIsFinal(Do(n, t, PublishPermit), rest, key);
  }

  // ---------------------------------------------------------------- authorization

  /** An automatic send that was checked runs, until its resume returns, for a current member
      and under the policies in force; at the check itself that holds for a manual retry too. */
  lemma SendsAreAuthorized(s: State, steps: Steps, t: Tid)
    requires Initial(s) && Run(s, steps)
    requires t in After(s, steps).tasks && After(s, steps).tasks[t].Sender?
    ensures var n := After(s, steps);
            var job, pc := n.tasks[t].job, n.tasks[t].spc;
            && (Sending(pc) ==> pc.key in W.Keys(n.doc))
            && (Sending(pc) && job.automatic ==> job.settings.policies == n.settings.policies)
            && (pc.Guarded? && n.permit.Allows(pc.key, job.revision) ==>
                  pc.key in W.Keys(n.doc) && job.settings == n.settings)
  {
    InitialInv(s);
    RunKeepsInv(s, steps);
    assert TaskInv(After(s, steps), t);
  }

  /** Two sends are never in flight together, and none overlaps a removal or a policy edit
      that has entered its section. */
  lemma SendsAreAlone(s: State, t: Tid, u: Tid)
    requires Inv(s) && t in s.tasks && u in s.tasks && t != u
    requires s.tasks[t].Sender? && Sending(s.tasks[t].spc)
    ensures s.tasks[u].Sender? ==> !Sending(s.tasks[u].spc)
    ensures s.tasks[u].Control? && NeedsBoundary(s.tasks[u].req.edit) ==>
              s.tasks[u].cpc.Asked? || s.tasks[u].cpc.Answered?
  {
    assert TaskInv(s, t) && TaskInv(s, u);
    assert Boundary in s.tasks[t].locks;
  }

  /** Whenever the daemon lock is free and the service runs, the permit carries the current
      revision, and its keys are the watchlist's exactly unless an edit changed the membership
      and the reread after it failed. */
  lemma PermitIsCurrentAtRelease(s: State, steps: Steps)
    requires Initial(s) && Run(s, steps)
    requires Free(After(s, steps), Daemon) && After(s, steps).permit.running
    ensures var n := After(s, steps);
            && n.permit.generation == n.revision
            && (n.permit.keys == W.Keys(n.doc) <==> !n.unlisted)
  {
    InitialInv(s);
    RunKeepsInv(s, steps);
    var n := After(s, steps);
    forall u | u in n.tasks ensures !Unpublished(n.tasks[u]) && !Relisting(n.tasks[u]) {
      assert TaskInv(n, u);
    }
  }

  /** In every run, an edit whose reread fails leaves the permit with the keys of the watchlist if
      and only if it changed no membership: the key it added was there, or the one it removed was
      not. */
  lemma FailedRereadIsExact(s: State, steps: Steps, t: Tid)
    requires Initial(s) && Run(s, steps)
    requires t in After(s, steps).tasks && After(s, steps).tasks[t].Control? && After(s, steps).tasks[t].cpc.Written?
    requires After(s, steps).permit.running
    ensures var n := After(s, steps);
            && Enabled(n, t, Fail)
            && var failed := Do(n, t, Fail);
               (failed.permit.keys == W.Keys(failed.doc) <==> !ChangesMembership(n.tasks[t].req.edit, n.permit.keys))
  {
    InitialInv(s);
    RunKeepsInv(s, steps);
    assert TaskInv(After(s, steps), t);
  }

  lemma EditKeys(doc: W.Doc, edit: Edit)
    requires W.Valid(doc)
    ensures edit.AddTarget? ==> W.Keys(W.AddDoc(doc, edit.target)) == EditedKeys(edit, W.Keys(doc))
    ensures edit.RemoveKey? ==> W.Keys(W.RemoveDoc(doc, edit.key)) == EditedKeys(edit, W.Keys(doc))
    ensures EditedKeys(edit, W.Keys(doc)) == W.Keys(doc) <==> !ChangesMembership(edit, W.Keys(doc))
  {
    match edit {
      case AddTarget(target) => W.AddMembership(doc, target);
      case RemoveKey(key) => W.RemoveMembership(doc, key);
      case _ =>
    }
  }

  /** That can be told before the edit is written, when the permit still holds the watchlist's keys. */
  lemma FailedRereadIsForeseen(s: State, steps: Steps, t: Tid)
    requires Initial(s) && Run(s, steps)
    requires t in After(s, steps).tasks && After(s, steps).tasks[t].Control? && After(s, steps).tasks[t].cpc.Shown?
    requires After(s, steps).permit.running
    ensures var n := After(s, steps);
            && Enabled(n, t, WriteEdit)
            && var keys, edit := W.Keys(n.doc), n.tasks[t].req.edit;
               && n.permit.keys == keys
               && W.Keys(Do(n, t, WriteEdit).doc) == EditedKeys(edit, keys)
               && (EditedKeys(edit, keys) == keys <==> !ChangesMembership(edit, keys))
  {
    InitialInv(s);
    RunKeepsInv(s, steps);
    var n := After(s, steps);
    assert TaskInv(n, t);
    EditKeys(n.doc, n.tasks[t].req.edit);
  }

  const SAMPLE_TARGET := WatchTarget(Manual, "codex", "a", None, None, 0, None)
  const SAMPLE_REQUEST := Request(None, AddTarget(SAMPLE_TARGET))

  function SampleStart(): State {
    State(map[Scan := Loop(LoopPc.Idle, {}), Shutdown := Stop(Serving, {})], Permit(true, {}, 1), 1,
          C.DEFAULT_SETTINGS, W.Doc([], {}), 1, false, [])
  }

  /** An addition whose reread fails. */
  function StaleSteps(): Steps {
    var t := Connection(0);
    [(t, Connect(Control(SAMPLE_REQUEST, ControlPc.Asked, {}))), (t, Acquire), (t, BumpRevision(C.DEFAULT_SETTINGS)),
     (t, PublishPermit), (t, WriteEdit), (t, Fail)]
  }

  /** A run after which the daemon lock is free and the permit, at the current revision, lacks a
      key of the watchlist. */
  lemma PermitCanBeStale()
    ensures Initial(SampleStart()) && Run(SampleStart(), StaleSteps())
    ensures var n := After(SampleStart(), StaleSteps());
            && Free(n, Daemon) && n.permit.running && n.permit.generation == n.revision
            && n.permit.keys == {} && W.Keys(n.doc) == {SAMPLE_TARGET.Key()}
  {
    var t, s0 := Connection(0), SampleStart();
    assert W.Keys(s0.doc) == {};
    W.AddMembership(s0.doc, SAMPLE_TARGET);
    var s1 := Do(s0, t, Connect(Control(SAMPLE_REQUEST, ControlPc.Asked, {})));
    var s2 := Do(s1, t, Acquire);
    var s3 := Do(s2, t, BumpRevision(C.DEFAULT_SETTINGS));
    var s4 := Do(s3, t, PublishPermit);
    var s5 := Do(s4, t, WriteEdit);
    var steps := StaleSteps();
    RunOneMore(s5, steps[5..]);
    RunOneMore(s4, steps[4..]);
    RunOneMore(s3, steps[3..]);
    RunOneMore(s2, steps[2..]);
    RunOneMore(s1, steps[1..]);
    RunOneMore(s0, steps);
  }

  lemma RunOneMore(s: State, steps: Steps)
    requires steps != [] && Enabled(s, steps[0].0, steps[0].1) && Run(Do(s, steps[0].0, steps[0].1), steps[1..])
    ensures Run(s, steps) && After(s, steps) == After(Do(s, steps[0].0, steps[0].1), steps[1..])
  {
  }

  // ---------------------------------------------------------------- optimistic concurrency

  /** Over any run, at most one mutation that expected a given revision got past its bump. */
  lemma OneMutationPerExpectedRevision(s: State, steps: Steps, i: nat, j: nat)
    requires Initial(s) && Run(s, steps)
    requires i < |After(s, steps).mutations| && j < |After(s, steps).mutations|
    requires After(s, steps).mutations[i].expected.Some?
    requires After(s, steps).mutations[i].expected == After(s, steps).mutations[j].expected
    ensures i == j
  {
    InitialInv(s);
    RunKeepsInv(s, steps);
  }

  /** One life of the service, and the revision its file holds at the end: a crash may come
      between the write of a bump and the mutation it announces. */
  datatype Life = Life(start: State, steps: Steps, file: nat)

  /** Each life starts past the revision in the file that the one before it left. */
  ghost predicate Lives(lives: seq<Life>) {
    && (forall k: nat :: k < |lives| ==> IsLife(lives[k]))
    && (forall k: nat :: k + 1 < |lives| ==> Succeeds(lives[k], lives[k + 1]))
  }

  ghost predicate IsLife(life: Life) {
    && Initial(life.start) && Run(life.start, life.steps)
    && After(life.start, life.steps).revision <= life.file <= U64_MAX
  }

  ghost predicate Succeeds(life: Life, next: Life) {
    life.file < U64_MAX && CS.Issue(CS.Control(None, Some(life.file)), CS.Start(true)) == Some(next.start.revision)
  }

  ghost function MutationsOf(life: Life): seq<Mutation>
    requires IsLife(life)
  {
    After(life.start, life.steps).mutations
  }

  /** A bump is the only step that logs a mutation, and it moves the revision on by one. */
  lemma LogGrows(s: State, t: Tid, a: Action)
    requires Enabled(s, t, a)
    ensures var n := Do(s, t, a);
            if a.BumpRevision?
            then n.revision == s.revision + 1 && |n.mutations| == |s.mutations| + 1
                 && n.mutations[..|s.mutations|] == s.mutations && n.mutations[|s.mutations|].revision == n.revision
            else n.revision == s.revision && n.mutations == s.mutations
  {
    if t in s.tasks && !a.BumpRevision? {
      OtherStepsDoNotLog(s, t, a);
    }
  }

  lemma SendersDoNotLog(s: State, t: Tid, a: Action)
    requires Enabled(s, t, a) && t in s.tasks && s.tasks[t].Sender? && !a.BumpRevision?
    ensures Do(s, t, a).revision == s.revision && Do(s, t, a).mutations == s.mutations
  {
  }

  lemma OtherStepsDoNotLog(s: State, t: Tid, a: Action)
    requires Enabled(s, t, a) && t in s.tasks && !a.BumpRevision?
    ensures Do(s, t, a).revision == s.revision && Do(s, t, a).mutations == s.mutations
  {
    if s.tasks[t].Sender? {
      SendersDoNotLog(s, t, a);
    }
  }

  ghost predicate AllPast(log: seq<Mutation>, base: nat) { forall i :: 0 <= i < |log| ==> base < log[i].revision }

  /** Mutations get revisions past the one their service started at. */
  lemma {:induction false} MutationsArePast(s: State, steps: Steps, base: nat)
    requires Run(s, steps) && base <= s.revision && AllPast(s.mutations, base)
    ensures AllPast(After(s, steps).mutations, base) && s.revision <= After(s, steps).revision
    decreases |steps|
  {
    if steps == [] {
    } else {
      var n := Do(s, steps[0].0, steps[0].1);
      LogGrows(s, steps[0].0, steps[0].1);
      assert forall i :: 0 <= i < |s.mutations| ==> n.mutations[i] == n.mutations[..|s.mutations|][i];
      MutationsArePast(n, steps[1..], base);
    }
  }

  lemma LifeMutations(life: Life, i: nat)
    requires IsLife(life) && i < |MutationsOf(life)|
    ensures life.start.revision < MutationsOf(life)[i].revision <= life.file
    ensures var m := MutationsOf(life)[i];
            m.expected.Some? ==> m.expected.value + 1 == m.revision
  {
    InitialInv(life.start);
    RunKeepsInv(life.start, life.steps);
    MutationsArePast(life.start, life.steps, life.start.revision);
  }

  lemma {:induction false} LaterLivesArePast(lives: seq<Life>, k: nat, l: nat)
    requires Lives(lives) && k < l < |lives|
    ensures lives[k].file < lives[l].start.revision
    decreases l
  {
    assert Succeeds(lives[l - 1], lives[l]);
    if k < l - 1 {
      LaterLivesArePast(lives, k, l - 1);
      var before := lives[l - 1];
      assert IsLife(before);
      MutationsArePast(before.start, before.steps, before.start.revision);
    }
  }

  /** Over all lives of the service, with restarts and crashes between them, at most one mutation
      that expected a given revision got past its bump. */
  lemma OneMutationAcrossRestarts(lives: seq<Life>, k: nat, i: nat, l: nat, j: nat)
    requires Lives(lives) && k < |lives| && l < |lives|
    requires IsLife(lives[k]) && i < |MutationsOf(lives[k])| && MutationsOf(lives[k])[i].expected.Some?
    requires IsLife(lives[l]) && j < |MutationsOf(lives[l])|
    requires MutationsOf(lives[k])[i].expected == MutationsOf(lives[l])[j].expected
    ensures k == l && i == j
  {
    LifeMutations(lives[k], i);
    LifeMutations(lives[l], j);
    if k < l {
      LaterLivesArePast(lives, k, l);
    } else if l < k {
      LaterLivesArePast(lives, l, k);
    } else {
      OneMutationPerExpectedRevision(lives[k].start, lives[k].steps, i, j);
    }
  }

  /** A scan edits the watchlist only if nothing changed since its plan: the revision, the
      settings and the list are those it captured. Every target its engine was allowed to
      send to stays a member. */
  lemma CommitFollowsItsPlan(s: State, t: Tid)
    requires Inv(s) && Enabled(s, t, WriteEdit) && s.tasks[t].Sender?
    ensures s.revision == s.tasks[t].job.revision
    ensures s.doc == s.tasks[t].job.doc && s.settings == s.tasks[t].job.settings
    ensures s.tasks[t].job.targets <= W.Keys(Do(s, t, WriteEdit).doc)
  {
    var job := s.tasks[t].job;
    assert TaskInv(s, t);
    DaemonHolderIsAlone(s, t);
    forall key | key in job.targets ensures key in W.Keys(Do(s, t, WriteEdit).doc) {
      W.FilterAgreesWithCommit(s.doc, job.sessions, job.now, s.settings.staleAfter, job.protected, key);
    }
  }

  // ---------------------------------------------------------------- deadlock freedom

  function Level(lock: Lock): nat {
    match lock
    case RetryTasks => 0
    case Engine => 2
    case Boundary => 3
    case Daemon => 4
    case Registry => 5
  }

  /** How far up the acquisition order a task waits; draining waits for operation tasks. */
  function WaitLevel(task: Task): nat {
    if Wants(task).Some? then Level(Wants(task).value)
    else if task.Stop? && task.tpc.Draining? then 1
    else 6
  }

  /** Nothing is left to do, or only a signal from outside can start it. */
  predicate Rests(task: Task) {
    || (task.Control? && task.cpc.Answered?)
    || (task.Loop? && task.lpc.Gone?)
    || (task.Retry? && task.rpc.Over?)
    || (task.Stop? && (task.tpc.Serving? || task.tpc.Closed?))
  }

  /** Every task takes its locks in one global order. */
  lemma AcquisitionOrder(task: Task, t: Tid, held: Lock)
    requires BelongsTo(task, t) && held in task.locks
    ensures Level(held) < WaitLevel(task)
    ensures !Rests(task)
  {
  }

  /** A task that waits for nothing has a step: provider calls and writes return. */
  lemma CanMove(s: State, t: Tid) returns (a: Action)
    requires t in s.tasks && BelongsTo(s.tasks[t], t)
    requires WaitLevel(s.tasks[t]) == 6 && !Rests(s.tasks[t])
    ensures Enabled(s, t, a) && !a.Connect?
  {
    match s.tasks[t]
    case Control(_, pc, _) => a := if pc.Entered? then Refuse else if pc.Shown? then WriteEdit else PublishPermit;
    case Loop(pc, _) =>
      a := if pc.Entered? then KeepConfig else if pc.Listing? then MakePlan(0)
           else if pc.Shown? then WriteEdit else PublishPermit;
    case Sender(_, pc, _) =>
      a := match pc
        case Guarded(_) => Check
        case Recorded(_) => SaveAttempt
        case Resuming(_) => Return
        case Discovering => Discover([], {})
        case Choosing => Fail
        case Comparing => Fail
        case Listed => Fail
        case Reconciled => PublishPermit
        case Recounted => PublishPermit
        case _ => Proceed;
    case Retry(pc, _) => a := if pc.Entered? then Refuse else Proceed;
    case Stop(_, _) => a := Proceed;
  }

  /** Who stands in the way of a waiting task waits, if at all, further up the order. */
  lemma Obstacle(s: State, t: Tid) returns (v: Tid)
    requires Inv(s) && t in s.tasks && Wants(s.tasks[t]).Some? && !Free(s, Wants(s.tasks[t]).value)
    ensures v in s.tasks && !Rests(s.tasks[v]) && WaitLevel(s.tasks[v]) > WaitLevel(s.tasks[t])
  {
    var lock := Wants(s.tasks[t]).value;
    v :| v in s.tasks && lock in s.tasks[v].locks;
    assert TaskInv(s, v);
    AcquisitionOrder(s.tasks[v], v, lock);
  }

  /** Shutdown waits for operation tasks only, and none of them needs the task set. */
  lemma Straggler(s: State, t: Tid) returns (v: Tid)
    requires Inv(s) && t in s.tasks && s.tasks[t].Stop? && s.tasks[t].tpc.Draining?
    requires !Enabled(s, t, Proceed)
    ensures v in s.tasks && !Rests(s.tasks[v]) && WaitLevel(s.tasks[v]) > 1
  {
    v :| v in s.tasks && !Drained(s.tasks[v]);
    assert TaskInv(s, v);
  }

  /** While any task has work left, some task can step. */
  lemma {:induction false} NoDeadlock(s: State, t: Tid) returns (u: Tid, a: Action)
    requires Inv(s) && t in s.tasks && !Rests(s.tasks[t])
    ensures Enabled(s, u, a) && !a.Connect?
    decreases 6 - WaitLevel(s.tasks[t])
  {
    if WaitLevel(s.tasks[t]) == 6 {
      assert TaskInv(s, t);
      u := t;
      a := CanMove(s, t);
    } else if Wants(s.tasks[t]).Some? {
      if Free(s, Wants(s.tasks[t]).value) {
        u, a := t, Acquire;
      } else {
        var v := Obstacle(s, t);
        u, a := NoDeadlock(s, v);
      }
    } else if Enabled(s, t, Proceed) {
      u, a := t, Proceed;
    } else {
      var v := Straggler(s, t);
      u, a := NoDeadlock(s, v);
    }
  }
}
