/** The remote worker authority: grants bound to one claim, outputs staged in 256 KiB
    chunks under the claim's token, reassembly and publication in one transaction.
    Grants are unforgeable: a grant verifies exactly when it was handed out. */
module WorkerStaging {
  import opened Wrappers
  import opened NativeJobs

  const CHUNK := 262144
  const GRANT_SECONDS := 600

  datatype WorkerError =
    | WORKER_SCOPE | WORKER_REQUEST_INVALID | WORKER_GRANT_INVALID | WORKER_LEASE_LOST
    | WORKER_OUTPUT_CONFLICT | WORKER_OUTPUT_LIMIT | WORKER_OUTPUT_INVALID | JobError(e: Error)

  datatype Grant = Grant(worker: nat, ticket: Ticket, expiresAt: int)

  datatype Key = Key(job: JobId, token: Token, index: nat)

  datatype Chunk = Chunk(offset: nat, bytes: Bytes)

  /** One staged output. `chunks` is its chunk table in offset order. */
  datatype Row = Row(filename: string, mime: string, total: nat, digest: Digest,
                     received: nat, expiresAt: int, chunks: seq<Chunk>)

  datatype World = World(table: Table, rows: map<Key, Row>, grants: set<Grant>)

  // ---------- authorisation of one call ----------

  /** `scoped`: the worker's registration still covers the grant's project and kind.
      `authorized`: the submitting user's session and write access still stand. */
  datatype Call = Call(worker: nat, grant: Grant, scoped: bool, authorized: bool)

  function GrantError(w: World, call: Call, now: int): Option<WorkerError> {
    if call.grant !in w.grants || call.grant.worker != call.worker || call.grant.expiresAt <= now
       || call.grant.expiresAt > now + GRANT_SECONDS then Some(WORKER_GRANT_INVALID)
    else if !call.scoped then Some(WORKER_SCOPE)
    else None
  }

  /** withClaim: verify the grant, then resolve the claim. A refusal by the resolver is
      returned, not thrown, so what the resolver stored is committed. */
  function Enter(w: World, call: Call, now: int): (World, Option<WorkerError>) {
    match GrantError(w, call, now)
    case Some(e) => (w, Some(e))
    case None =>
      var (table, active) := Resolve(w.table, call.grant.ticket, call.authorized, now);
      (w.(table := table), if active then None else Some(WORKER_LEASE_LOST))
  }

  // ---------- claims and cleanup ----------

  predicate LiveClaim(t: Table, job: JobId, token: Token, now: int) {
    && job in t.jobs && t.jobs[job].state.Running? && t.jobs[job].token == Some(token)
    && t.jobs[job].claimUntil > now && t.jobs[job].expiresAt > now && !t.jobs[job].cancelRequested
  }

  function Cleanup(w: World, now: int): World {
    w.(rows := map k | k in w.rows && w.rows[k].expiresAt > now && LiveClaim(w.table, k.job, k.token, now) :: w.rows[k])
  }

  function DropAttempt(w: World, job: JobId, token: Token): World {
    w.(rows := map k | k in w.rows && !(k.job == job && k.token == token) :: w.rows[k])
  }

  /** Deleting a job row takes its staged outputs along. */
  function Cascade(w: World): World {
    w.(rows := map k | k in w.rows && k.job in w.table.jobs :: w.rows[k])
  }

  /** `inputOk`: the stored input still has the claimed digest and a supported size. */
  datatype RemoteRequest = RemoteRequest(worker: nat, registered: set<Kind>, projects: set<ProjectId>, kinds: set<Kind>,
                                         token: Token, live: set<JobId>, inputOk: bool)

  function AsClaim(r: RemoteRequest): ClaimRequest { ClaimRequest(Remote(r.projects, r.kinds), r.token, r.live) }

  ghost function RemoteClaim(w: World, r: RemoteRequest, now: int): (World, Result<Option<Grant>, WorkerError>) {
    if r.kinds == {} then (w, Err(WORKER_REQUEST_INVALID))
    else if !(r.kinds <= r.registered) then (w, Err(WORKER_SCOPE))
    else
      var clean := Cleanup(w, now);
      var (table, ticket) := Claim(clean.table, AsClaim(r), now);
      if ticket.None? then (clean.(table := table), Ok(None))
      else if !r.inputOk then (clean.(table := Fail(table, ticket.value, "JOB_INPUT_INVALID", now)), Ok(None))
      else
        var grant := Grant(r.worker, ticket.value, now + GRANT_SECONDS);
        (clean.(table := table, grants := w.grants + {grant}), Ok(Some(grant)))
  }

  function RemoteRenew(w: World, call: Call, now: int): (World, Result<bool, WorkerError>) {
    var (entered, error) := Enter(w, call, now);
    if error.Some? then (entered, Err(error.value))
    else
      var (table, active) := Renew(entered.table, call.grant.ticket, call.authorized, now);
      (entered.(table := table), Ok(active))
  }

  function FailJob(w: World, call: Call, text: string, now: int): (World, Result<bool, WorkerError>) {
    var (entered, error) := Enter(w, call, now);
    if error.Some? then (entered, Err(error.value))
    else
      var c := call.grant.ticket;
      (DropAttempt(entered.(table := Fail(entered.table, c, text, now)), c.id, c.token), Ok(true))
  }

  // ---------- staging ----------

  datatype Part = Part(index: nat, filename: string, mime: string, total: nat, digest: Digest, offset: nat, bytes: Bytes)

  /** Whole chunks on chunk boundaries; only the last chunk of an output may be short. */
  predicate WellFormed(p: Part) {
    && p.index < MAX_OUTPUTS
    && 1 <= p.total <= MAX_OUTPUT_BYTES && p.offset < MAX_OUTPUT_BYTES
    && 0 < |p.bytes| <= CHUNK && p.offset % CHUNK == 0
    && p.offset + |p.bytes| <= p.total
    && (p.offset + |p.bytes| < p.total ==> |p.bytes| == CHUNK)
  }

  /** Rows, and bytes they announce, staged for one attempt at indices below n. */
  function StagedCount(rows: map<Key, Row>, job: JobId, token: Token, n: nat): nat {
    if n == 0 then 0
    else StagedCount(rows, job, token, n - 1) + if Key(job, token, n - 1) in rows then 1 else 0
  }

  function StagedBytes(rows: map<Key, Row>, job: JobId, token: Token, n: nat): nat {
    if n == 0 then 0
    else StagedBytes(rows, job, token, n - 1) + if Key(job, token, n - 1) in rows then rows[Key(job, token, n - 1)].total else 0
  }

  predicate NameTaken(rows: map<Key, Row>, job: JobId, token: Token, filename: string) {
    exists i :: 0 <= i < MAX_OUTPUTS && Key(job, token, i) in rows && rows[Key(job, token, i)].filename == filename
  }

  function NewRow(p: Part, expiresAt: int): Row { Row(p.filename, p.mime, p.total, p.digest, 0, expiresAt, []) }

  /** The row a part belongs to, created by the part at offset 0. */
  function RowFor(w: World, g: Grant, p: Part): Result<Row, WorkerError> {
    var key := Key(g.ticket.id, g.ticket.token, p.index);
    if key in w.rows then Ok(w.rows[key])
    else if StagedCount(w.rows, key.job, key.token, MAX_OUTPUTS) >= MAX_OUTPUTS
            || StagedBytes(w.rows, key.job, key.token, MAX_OUTPUTS) + p.total > MAX_OUTPUT_BYTES then Err(WORKER_OUTPUT_LIMIT)
    else if p.offset != 0 || NameTaken(w.rows, key.job, key.token, p.filename) then Err(WORKER_OUTPUT_CONFLICT)
    else Ok(NewRow(p, g.expiresAt))
  }

  predicate Describes(p: Part, row: Row) {
    row.filename == p.filename && row.mime == p.mime && row.total == p.total && row.digest == p.digest
  }

  function ChunkAt(chunks: seq<Chunk>, offset: nat): Option<Bytes> {
    if chunks == [] then None
    else if chunks[|chunks| - 1].offset == offset then Some(chunks[|chunks| - 1].bytes)
    else ChunkAt(chunks[..|chunks| - 1], offset)
  }

  function Append(row: Row, p: Part): Row {
    row.(chunks := row.chunks + [Chunk(p.offset, p.bytes)], received := p.offset + |p.bytes|)
  }

  /** What an authorised part does: the row to store, or why the request is rolled back. */
  function Accept(w: World, g: Grant, p: Part, now: int): Result<Row, WorkerError> {
    match RowFor(w, g, p)
    case Err(e) => Err(e)
    case Ok(row) =>
      if !Describes(p, row) || row.expiresAt <= now then Err(WORKER_OUTPUT_CONFLICT)
      else match ChunkAt(row.chunks, p.offset)
        case Some(bytes) => if bytes == p.bytes then Ok(row) else Err(WORKER_OUTPUT_CONFLICT)
        case None => if p.offset != row.received then Err(WORKER_OUTPUT_CONFLICT) else Ok(Append(row, p))
  }

  function Stage(w: World, call: Call, p: Part, now: int): (World, Result<nat, WorkerError>) {
    if !WellFormed(p) then (w, Err(WORKER_REQUEST_INVALID))
    else
      var (entered, error) := Enter(w, call, now);
      if error.Some? then (entered, Err(error.value))
      else match Accept(entered, call.grant, p, now)
        case Err(e) => (entered, Err(e))
        case Ok(row) =>
          var key := Key(call.grant.ticket.id, call.grant.ticket.token, p.index);
          (entered.(rows := entered.rows[key := row]), Ok(p.offset + |p.bytes|))
  }

  // ---------- completion ----------

  /** The bytes of chunks that follow one another without gap or overlap from offset 0. */
  function Reassemble(chunks: seq<Chunk>): Option<Bytes> {
    if chunks == [] then Some([])
    else match Reassemble(chunks[..|chunks| - 1])
      case None => None
      case Some(bytes) =>
        var last := chunks[|chunks| - 1];
        if last.offset != |bytes| || |last.bytes| == 0 || |last.bytes| > CHUNK then None else Some(bytes + last.bytes)
  }

  function OutputOf(row: Row, now: int): Result<Output, WorkerError> {
    if row.expiresAt <= now || row.received != row.total then Err(WORKER_OUTPUT_CONFLICT)
    else match Reassemble(row.chunks)
      case None => Err(WORKER_OUTPUT_INVALID)
      case Some(bytes) =>
        if |bytes| != row.total || Sha256(bytes) != row.digest then Err(WORKER_OUTPUT_INVALID)
        else Ok(Output(row.filename, row.mime, bytes, row.digest))
  }

  /** ORDER BY output_index: the outputs of an attempt at indices below n. */
  function Collect(rows: map<Key, Row>, job: JobId, token: Token, n: nat, now: int): Result<seq<Output>, WorkerError> {
    if n == 0 then Ok([])
    else match Collect(rows, job, token, n - 1, now)
      case Err(e) => Err(e)
      case Ok(outputs) =>
        var key := Key(job, token, n - 1);
        if key !in rows then Ok(outputs)
        else match OutputOf(rows[key], now)
          case Err(e) => Err(e)
          case Ok(output) => Ok(outputs + [output])
  }

  /** `bound`: the worker's summary names this claim's kind, source and adapter. */
  function Complete(w: World, call: Call, bound: bool, room: nat, now: int): (World, Result<bool, WorkerError>) {
    var (entered, error) := Enter(w, call, now);
    if error.Some? then (entered, Err(error.value))
    else
      var c := call.grant.ticket;
      if !bound then (entered, Err(WORKER_OUTPUT_INVALID))
      else if StagedCount(entered.rows, c.id, c.token, MAX_OUTPUTS) == 0
              || StagedBytes(entered.rows, c.id, c.token, MAX_OUTPUTS) > MAX_OUTPUT_BYTES then (entered, Err(WORKER_OUTPUT_LIMIT))
      else match Collect(entered.rows, c.id, c.token, MAX_OUTPUTS, now)
        case Err(e) => (entered, Err(e))
        case Ok(outputs) =>
          match Finish(entered.table, c, Delivery(outputs, true, call.authorized, room), now)
          case (_, Err(e)) => (entered, Err(JobError(e)))
          case (table, Ok(false)) => (entered.(table := table), Ok(false))
          case (table, Ok(true)) => (DropAttempt(entered.(table := table), c.id, c.token), Ok(true))
  }
}
