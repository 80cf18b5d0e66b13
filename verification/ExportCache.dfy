/** The Excel export cache: any number of concurrent callers of `get_or_build`, one database row per key,
    and a directory of final `.xlsx` files. A run is a sequence of states, each one atomic step after
    the one before: a transaction, one file operation, or something the environment does. */
module ExportCache {
  import opened Wrappers
  import opened ExportNames

  type Bytes = seq<bv8>
  type Digest = string
  type Path = nat        // a storage key: fresh for every write (uuid4)
  type Token = nat       // a claim token: fresh for every claim (uuid4)
  type CallerId = nat

  datatype Key = Key(artifactVersionId: string, templateVersion: string)

  /** What the cache is run against: the renderer and hash are not part of the model. */
  datatype World = World(render: Key -> Bytes, hash: Bytes -> Digest, leaseMs: nat)

  ghost predicate Sound(w: World) {
    && (forall a, b :: w.hash(a) == w.hash(b) ==> a == b)
    && (forall k :: |w.render(k)| > 0)
  }

  datatype Status = Building | Ready | Failed

  datatype Row = Row(
    status: Status,
    filename: Option<string>,
    storageKey: Option<Path>,
    sha256: Option<Digest>,
    sizeBytes: Option<nat>,
    createdAt: int,
    claimToken: Token)

  datatype ExportedFile = ExportedFile(filename: string, sha256: Digest, sizeBytes: nat, content: Bytes)

  /** What a caller that was given a storage key is doing with its file. */
  datatype Stage =
    | Writing                // shielded write task running
    | Unwinding              // cancelled, waiting for the write task to end
    | Marking                // file written, `_mark_ready` to run
    | Rechecking             // cancelled in `_mark_ready`, re-reading the row
    | Removing(retry: bool)  // deleting its own file

  /** Where a call of `get_or_build` is suspended. */
  datatype Phase =
    | Polling                                         // top of the loop, or asleep inside the lease
    | Inserting                                       // read no row, about to insert one
    | Rendering(token: Token)                         // owns a claim, renderer thread running
    | OnDisk(token: Token, path: Path, stage: Stage)  // owns a claim and a storage key
    | Failing(token: Token)                           // `_mark_failed` to run
    | Returned(file: ExportedFile)
    | Raised

  datatype Caller = Caller(key: Key, filename: string, retryBudget: nat, phase: Phase)

  /** File work in a thread that nobody awaits any more. */
  datatype Job = WriteJob(path: Path) | DeleteJob(path: Path, owner: CallerId)

  datatype Origin = Origin(key: Key, owner: CallerId)

  datatype State = State(
    rows: map<Key, Row>,
    files: map<Path, Bytes>,
    callers: map<CallerId, Caller>,
    jobs: set<Job>,
    now: int,
    nextToken: Token,
    nextPath: Path,
    // history
    origin: map<Path, Origin>,   // who was given a storage key, and for which row
    damaged: set<Path>,          // files the environment has touched
    stranded: set<Path>,         // files left without a name and without anybody to remove them
    renders: map<Key, nat>)      // how often each key was rendered

  const MAX_DB_RETRY_ATTEMPTS: nat := 5

  const Init := State(map[], map[], map[], {}, 0, 0, 0, map[], {}, {}, map[])

  datatype WriteReply = WriteDone | WriteError | WriteCancelled
  datatype MarkReply = Acked | MarkCancelled(landed: bool) | MarkErrored(landed: bool)

  datatype Label =
    | Arrive(c: CallerId, key: Key, filename: string)
    | Poll(c: CallerId, unlinked: bool)     // SELECT ... FOR UPDATE and what follows under that lock
    | PollCancelled(c: CallerId)            // cancelled while a damaged file is being deleted
    | RetryDb(c: CallerId)                  // deadlock or lock wait timeout, budget left
    | Insert(c: CallerId)
    | Render(c: CallerId, ok: bool)
    | Write(c: CallerId, wrote: WriteReply)
    | Unwind(c: CallerId, wroteFile: bool)
    | Mark(c: CallerId, reply: MarkReply)
    | Recheck(c: CallerId)
    | Remove(c: CallerId, unlinked: bool)
    | RemoveCancelled(c: CallerId)
    | MarkFailed(c: CallerId, landed: bool)
    | Abandon(c: CallerId)                  // crash, or raising without (further) cleanup
    | RunJob(job: Job)
    | DropJob(job: Job)
    | Tick(ms: nat)
    | Damage(path: Path, content: Option<Bytes>)

  // ---------------------------------------------------------------- transitions

  function TokenOf(p: Phase): Option<Token> {
    match p
    case Rendering(t) => Some(t)
    case OnDisk(t, _, _) => Some(t)
    case Failing(t) => Some(t)
    case _ => None
  }

  function PathOf(p: Phase): Option<Path> {
    if p.OnDisk? then Some(p.path) else None
  }

  predicate Finished(p: Phase) { p.Returned? || p.Raised? }

  function SetPhase(s: State, c: CallerId, p: Phase): State
    requires c in s.callers
  {
    s.(callers := s.callers[c := s.callers[c].(phase := p)])
  }

  /** The four ways of taking a row all end here: a fresh token, then render. */
  function Claim(s: State, c: CallerId, row: Row): State
    requires c in s.callers
  {
    SetPhase(s, c, Rendering(s.nextToken)).(
      rows := s.rows[s.callers[c].key := row.(createdAt := s.now, claimToken := s.nextToken)],
      nextToken := s.nextToken + 1)
  }

  predicate CompleteReady(row: Row) {
    && row.status == Ready
    && row.filename.Some? && row.filename.value != ""
    && row.storageKey.Some?
    && row.sha256.Some?
    && row.sizeBytes.Some? && row.sizeBytes.value > 0
  }

  predicate Verifies(w: World, row: Row, content: Bytes) {
    row.sha256 == Some(w.hash(content)) && row.sizeBytes == Some(|content|)
  }

  /** The ready row of a key names this file. */
  predicate Names(s: State, k: Key, p: Path) {
    k in s.rows && s.rows[k].status == Ready && s.rows[k].storageKey == Some(p)
  }

  /** A file that is there and that the ready row of the key does not name. */
  function Unnamed(s: State, k: Key, p: Path): set<Path> { if p in s.files && !Names(s, k, p) then {p} else {} }

  /** The complete ready row names a file that exists but fails its hash or size. */
  predicate Discards(w: World, s: State, k: Key) {
    && k in s.rows && CompleteReady(s.rows[k])
    && var p := s.rows[k].storageKey.value;
       p in s.files && !Verifies(w, s.rows[k], s.files[p])
  }

  predicate Stale(w: World, s: State, row: Row) {
    row.status == Building && s.now - row.createdAt >= w.leaseMs
  }

  function PollStep(w: World, s: State, c: CallerId, unlinked: bool): State
    requires c in s.callers
  {
    var k := s.callers[c].key;
    if k !in s.rows then SetPhase(s, c, Inserting)
    else
      var row := s.rows[k];
      if CompleteReady(row) then
        var p := row.storageKey.value;
        if p in s.files && Verifies(w, row, s.files[p]) then
          SetPhase(s, c, Returned(ExportedFile(row.filename.value, row.sha256.value, row.sizeBytes.value, s.files[p])))
        else
          var s1 := if p !in s.files then s
                    else if unlinked then s.(files := s.files - {p})
                    else s.(stranded := s.stranded + {p});
          Claim(s1, c, row.(status := Building, sha256 := None, storageKey := None, sizeBytes := None))
      else if row.status == Building then
        if Stale(w, s, row) then Claim(s, c, row) else s
      else
        Claim(s, c, Row(Building, None, None, None, None, s.now, s.nextToken))
  }

  function MarkReadyRow(w: World, caller: Caller, row: Row, path: Path): Row {
    var content := w.render(caller.key);
    row.(status := Ready, filename := Some(SanitizeFilename(caller.filename)), storageKey := Some(path),
    sha256 := Some(w.hash(content)), sizeBytes := Some(|content|))
  }

  function Rendered(w: World, caller: Caller): ExportedFile {
    var content := w.render(caller.key);
    ExportedFile(SanitizeFilename(caller.filename), w.hash(content), |content|, content)
  }

  predicate OwnsRow(s: State, k: Key, t: Token) {
    k in s.rows && s.rows[k].claimToken == t
  }

  function MarkStep(w: World, s: State, c: CallerId, t: Token, p: Path, reply: MarkReply): State
    requires c in s.callers
  {
    var caller := s.callers[c];
    var matched := OwnsRow(s, caller.key, t);
    var s1 := if matched && (reply.Acked? || reply.landed)
              then s.(rows := s.rows[caller.key := MarkReadyRow(w, caller, s.rows[caller.key], p)])
              else s;
    match reply
    case Acked => SetPhase(s1, c, if matched then Returned(Rendered(w, caller)) else OnDisk(t, p, Removing(true)))
    case MarkCancelled(_) => SetPhase(s1, c, OnDisk(t, p, Rechecking))
    case MarkErrored(_) => SetPhase(s1, c, OnDisk(t, p, Removing(false)))
  }

  function RenderStep(s: State, c: CallerId, t: Token, ok: bool): State
    requires c in s.callers
  {
    var k := s.callers[c].key;
    var s1 := s.(renders := s.renders[k := Renders(s, k) + 1]);
    if ok then
      SetPhase(s1, c, OnDisk(t, s.nextPath, Writing)).(
        nextPath := s.nextPath + 1, origin := s.origin[s.nextPath := Origin(k, c)])
    else SetPhase(s1, c, Failing(t))
  }

  function WriteStep(w: World, s: State, c: CallerId, t: Token, p: Path, wrote: WriteReply): State
    requires c in s.callers
  {
    match wrote
    case WriteDone => SetPhase(s, c, OnDisk(t, p, Marking)).(files := s.files[p := w.render(s.callers[c].key)])
    case WriteError => SetPhase(s, c, Failing(t))
    case WriteCancelled => SetPhase(s, c, OnDisk(t, p, Unwinding))
  }

  function UnwindStep(w: World, s: State, c: CallerId, t: Token, p: Path, wroteFile: bool): State
    requires c in s.callers
  {
    SetPhase(s, c, OnDisk(t, p, Removing(false))).(
    files := if wroteFile then s.files[p := w.render(s.callers[c].key)] else s.files)
  }

  function RemoveStep(s: State, c: CallerId, t: Token, p: Path, retry: bool, unlinked: bool): State
    requires c in s.callers
  {
    SetPhase(s, c, if retry then Polling else Failing(t)).(
    files := if unlinked then s.files - {p} else s.files,
    stranded := if unlinked then s.stranded else s.stranded + Unnamed(s, s.callers[c].key, p))
  }

  /** Cancelled while awaiting a deletion: the caller is gone, the thread goes on. */
  function DeleteInBackground(s: State, c: CallerId, p: Path): State
    requires c in s.callers
  {
    SetPhase(s, c, Raised).(jobs := s.jobs + {DeleteJob(p, c)})
  }

  function RecheckStep(s: State, c: CallerId, t: Token, p: Path): State
    requires c in s.callers
  {
    var k := s.callers[c].key;
    var committed := OwnsRow(s, k, t) && s.rows[k].status == Ready && s.rows[k].storageKey == Some(p);
    SetPhase(s, c, if committed then Raised else OnDisk(t, p, Removing(false)))
  }

  function MarkFailedStep(s: State, c: CallerId, t: Token, landed: bool): State
    requires c in s.callers
  {
    var k := s.callers[c].key;
    var s1 := if landed && OwnsRow(s, k, t)
              then s.(rows := s.rows[k := s.rows[k].(status := Failed)], stranded := s.stranded + NamedFile(s, k))
              else s;
    SetPhase(s1, c, Raised)
  }

  /** The file that a ready row names, if it is there. */
  function NamedFile(s: State, k: Key): set<Path> {
    if k in s.rows && s.rows[k].status == Ready && s.rows[k].storageKey.Some? && s.rows[k].storageKey.value in s.files
    then {s.rows[k].storageKey.value} else {}
  }

  function AbandonStep(s: State, c: CallerId): State
    requires c in s.callers
  {
    var phase := s.callers[c].phase;
    var s1 := SetPhase(s, c, Raised);
    match PathOf(phase)
    case None => s1
    case Some(p) =>
      s1.(stranded := s.stranded + Unnamed(s, s.callers[c].key, p),
      jobs := if phase.stage == Writing || phase.stage == Unwinding then s.jobs + {WriteJob(p)} else s.jobs)
  }

  function CallerStep(w: World, s: State, l: Label): Option<State>
    requires !(l.Arrive? || l.RunJob? || l.DropJob? || l.Tick? || l.Damage?)
  {
    var c := l.c;
    if c !in s.callers then None else
    var caller := s.callers[c];
    match (l, caller.phase)
    case (Poll(_, unlinked), Polling) => Some(PollStep(w, s, c, unlinked))
    case (PollCancelled(_), Polling) =>
      if Discards(w, s, caller.key) then Some(DeleteInBackground(s, c, s.rows[caller.key].storageKey.value)) else None
    case (RetryDb(_), Polling) => RetryStep(s, c)
    case (RetryDb(_), Inserting) => RetryStep(s, c)
    case (Insert(_), Inserting) =>
      if caller.key in s.rows then Some(SetPhase(s, c, Polling))
      else Some(Claim(s, c, Row(Building, None, None, None, None, s.now, s.nextToken)))
    case (Render(_, ok), Rendering(t)) =>
      Some(RenderStep(s, c, t, ok))
    case (Write(_, wrote), OnDisk(t, p, Writing)) => Some(WriteStep(w, s, c, t, p, wrote))
    case (Unwind(_, wroteFile), OnDisk(t, p, Unwinding)) => Some(UnwindStep(w, s, c, t, p, wroteFile))
    case (Mark(_, reply), OnDisk(t, p, Marking)) => Some(MarkStep(w, s, c, t, p, reply))
    case (Recheck(_), OnDisk(t, p, Rechecking)) => Some(RecheckStep(s, c, t, p))
    case (Remove(_, unlinked), OnDisk(t, p, Removing(retry))) => Some(RemoveStep(s, c, t, p, retry, unlinked))
    case (RemoveCancelled(_), OnDisk(t, p, Removing(_))) => Some(DeleteInBackground(s, c, p))
    case (MarkFailed(_, landed), Failing(t)) => Some(MarkFailedStep(s, c, t, landed))
    case (Abandon(_), phase) => if Finished(phase) then None else Some(AbandonStep(s, c))
    case _ => None
  }

  function RetryStep(s: State, c: CallerId): Option<State>
    requires c in s.callers
  {
    var caller := s.callers[c];
    if caller.retryBudget == 0 then None
    else Some(s.(callers := s.callers[c := caller.(phase := Polling, retryBudget := caller.retryBudget - 1)]))
  }

  /** What a background thread leaves behind when it never runs: the file that it was to delete. */
  function LeftBy(s: State, job: Job): set<Path> {
    if job.WriteJob? then {} else if job.path in s.origin then Unnamed(s, s.origin[job.path].key, job.path) else {job.path}
  }

  function Renders(s: State, k: Key): nat { if k in s.renders then s.renders[k] else 0 }

  function EnvStep(w: World, s: State, l: Label): Option<State>
    requires l.Arrive? || l.RunJob? || l.DropJob? || l.Tick? || l.Damage?
  {
    match l
    case Arrive(c, k, name) =>
      if c in s.callers then None
      else Some(s.(callers := s.callers[c := Caller(k, name, MAX_DB_RETRY_ATTEMPTS, Polling)]))
    case RunJob(job) =>
      if job !in s.jobs then None
      else (match job
            case WriteJob(p) =>
              if p in s.origin
              then Some(s.(jobs := s.jobs - {job}, files := s.files[p := w.render(s.origin[p].key)], stranded := s.stranded + {p}))
              else None
            case DeleteJob(p, _) => Some(s.(jobs := s.jobs - {job}, files := s.files - {p})))
    case DropJob(job) =>
      if job in s.jobs then Some(s.(jobs := s.jobs - {job}, stranded := s.stranded + LeftBy(s, job))) else None
    case Tick(ms) => Some(s.(now := s.now + ms))
    case Damage(p, content) =>
      if p !in s.files then None
      else Some(s.(damaged := s.damaged + {p},
                files := if content.Some? then s.files[p := content.value] else s.files - {p}))
  }

  /** One step, or None when the label is not possible in this state. */
  function Step(w: World, s: State, l: Label): Option<State> {
    if l.Arrive? || l.RunJob? || l.DropJob? || l.Tick? || l.Damage? then EnvStep(w, s, l) else CallerStep(w, s, l)
  }

  ghost predicate Next(w: World, s: State, t: State) { exists l :: Step(w, s, l) == Some(t) }

  ghost predicate StepAt(w: World, ss: seq<State>, i: nat)
    requires i + 1 < |ss|
  {
    Next(w, ss[i], ss[i + 1])
  }

  /** The states of a run, one after the other. */
  ghost predicate IsRun(w: World, ss: seq<State>) {
    ss != [] && ss[0] == Init && forall i :: 0 <= i < |ss| - 1 ==> StepAt(w, ss, i)
  }

  function Last(ss: seq<State>): State
    requires ss != []
  {
    ss[|ss| - 1]
  }
}
