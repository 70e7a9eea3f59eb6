/** The durable native job queue: one row per job, an expiring lease per attempt,
    a fresh fencing token per claim, at most two attempts.
    Each function below is the meaning of one serialised transaction, read at one
    instant `now`; class JobStore (NativeJobStore.dfy) carries them out in place. */
module NativeJobs {
  import opened Numbers
  import opened Wrappers

  // Identifiers are opaque text in the database. Their only uses are equality and,
  // for the queue, a total order, so numbers stand for them.
  type JobId = nat
  type Token = nat
  type ProjectId = nat
  type UserId = nat
  type ArtifactId = nat

  const MAX_PROJECT_JOBS := 32
  const MAX_PROJECT_ACTIVE := 2
  const MAX_ACTIVE := 64
  const MAX_RUNNING := 4
  const MAX_ATTEMPTS := 2
  const BATCH := 64
  const LEASE_SECONDS := 20
  const JOB_DEADLINE_SECONDS := 600
  const MAX_OUTPUTS := 8
  const MAX_OUTPUT_BYTES := 33554432

  datatype Kind = DwgToDxf | DxfToDwg | OpenseesStatic

  datatype State = Queued | Running | Succeeded | Failed | Cancelled

  datatype Code =
    | CANCELLED | LEASE_EXPIRED | QUEUE_EXPIRED | ACCESS_CHANGED | NATIVE_UNAVAILABLE
    | JOB_DEADLINE_EXCEEDED | Reported(text: string)

  datatype Job = Job(
    project: ProjectId, kind: Kind, input: ArtifactId, digest: Digest,
    owner: UserId, key: nat, request: nat, createdAt: int, expiresAt: int,
    state: State, attempts: nat, cancelRequested: bool,
    token: Option<Token>, claimUntil: int, error: Option<Code>)

  datatype Output = Output(filename: string, mime: string, bytes: Bytes, digest: Digest)

  /** The job rows, the published outputs of succeeded jobs, and what the random
      generator has drawn so far (the source relies on draws never repeating). */
  datatype Table = Table(jobs: map<JobId, Job>, published: map<JobId, seq<Output>>,
                         drawnIds: set<JobId>, drawnTokens: set<Token>)

  const EMPTY := Table(map[], map[], {}, {})

  /** What a claim hands to its holder. */
  datatype Ticket = Ticket(id: JobId, token: Token, project: ProjectId, kind: Kind,
                           input: ArtifactId, digest: Digest)

  datatype Error =
    | ACCESS_DENIED | IDEMPOTENCY_CONFLICT | REFUSED(code: string) | JOB_CAPACITY
    | JOB_NOT_FOUND | JOB_ACTIVE | JOB_OUTPUT_INVALID | JOB_OUTPUT_SIZE | ARTIFACT_CAPACITY

  // ---------- rows and row counts ----------

  predicate Active(j: Job) { j.state.Queued? || j.state.Running? }

  function RunningIds(jobs: map<JobId, Job>): set<JobId> {
    set id | id in jobs && jobs[id].state.Running?
  }

  function ActiveIds(jobs: map<JobId, Job>): set<JobId> {
    set id | id in jobs && Active(jobs[id])
  }

  function ProjectIds(jobs: map<JobId, Job>, project: ProjectId): set<JobId> {
    set id | id in jobs && jobs[id].project == project
  }

  function ProjectActiveIds(jobs: map<JobId, Job>, project: ProjectId): set<JobId> {
    set id | id in jobs && jobs[id].project == project && Active(jobs[id])
  }

  function Terminal(j: Job, state: State, code: Code): Job {
    j.(state := state, error := Some(code), token := None, claimUntil := 0)
  }

  function CancelOr(j: Job, code: Code): Job {
    if j.cancelRequested then Terminal(j, Cancelled, CANCELLED) else Terminal(j, Failed, code)
  }

  function Put(t: Table, id: JobId, j: Job): Table { t.(jobs := t.jobs[id := j]) }

  // ---------- submit, cancel, delete ----------

  /** `refusal` is the first of the source checks outside the queue that fails
      (runtime availability, project revision, input artifact, workspace revision). */
  datatype Submission = Submission(
    id: JobId, project: ProjectId, owner: UserId, kind: Kind, input: ArtifactId, digest: Digest,
    key: nat, request: nat, authorized: bool, refusal: Option<Error>)

  predicate SameKey(j: Job, r: Submission) {
    j.project == r.project && j.owner == r.owner && j.key == r.key
  }

  ghost function Previous(t: Table, r: Submission): Option<JobId> {
    if exists id :: id in t.jobs && SameKey(t.jobs[id], r) then
      var id :| id in t.jobs && SameKey(t.jobs[id], r);
      Some(id)
    else None
  }

  predicate CapacityReached(t: Table, project: ProjectId) {
    || |ProjectIds(t.jobs, project)| >= MAX_PROJECT_JOBS
    || |ProjectActiveIds(t.jobs, project)| >= MAX_PROJECT_ACTIVE
    || |ActiveIds(t.jobs)| >= MAX_ACTIVE
  }

  function NewJob(r: Submission, now: int): Job {
    Job(r.project, r.kind, r.input, r.digest, r.owner, r.key, r.request, now, now + JOB_DEADLINE_SECONDS,
        Queued, 0, false, None, 0, None)
  }

  ghost function Submit(t: Table, r: Submission, now: int): (Table, Result<JobId, Error>) {
    if !r.authorized then (t, Err(ACCESS_DENIED))
    else match Previous(t, r)
      case Some(id) => (t, if t.jobs[id].request == r.request then Ok(id) else Err(IDEMPOTENCY_CONFLICT))
      case None =>
        if r.refusal.Some? then (t, Err(r.refusal.value))
        else if CapacityReached(t, r.project) then (t, Err(JOB_CAPACITY))
        else (t.(jobs := t.jobs[r.id := NewJob(r, now)], drawnIds := t.drawnIds + {r.id}), Ok(r.id))
  }

  predicate Has(t: Table, project: ProjectId, id: JobId) { id in t.jobs && t.jobs[id].project == project }

  function Cancel(t: Table, project: ProjectId, id: JobId, authorized: bool): (Table, Result<(), Error>) {
    if !authorized then (t, Err(ACCESS_DENIED))
    else if !Has(t, project, id) then (t, Err(JOB_NOT_FOUND))
    else
      var j := t.jobs[id];
      if j.state.Queued? then (Put(t, id, j.(state := Cancelled, cancelRequested := true)), Ok(()))
      else if j.state.Running? then (Put(t, id, j.(cancelRequested := true)), Ok(()))
      else (t, Ok(()))
  }

  /** The links to published outputs go with the row; the artifacts themselves stay in the project. */
  function Delete(t: Table, project: ProjectId, id: JobId, authorized: bool): (Table, Result<(), Error>) {
    if !authorized then (t, Err(ACCESS_DENIED))
    else if !Has(t, project, id) then (t, Err(JOB_NOT_FOUND))
    else if Active(t.jobs[id]) then (t, Err(JOB_ACTIVE))
    else (t.(jobs := t.jobs - {id}, published := t.published - {id}), Ok(()))
  }

  // ---------- claim ----------

  predicate Stale(j: Job, now: int) { j.state.Running? && j.claimUntil <= now }

  function StaleIds(jobs: map<JobId, Job>, now: int): set<JobId> {
    set id | id in jobs && Stale(jobs[id], now)
  }

  function Recover(j: Job, now: int): Job {
    if j.cancelRequested then Terminal(j, Cancelled, CANCELLED)
    else if j.attempts >= MAX_ATTEMPTS || j.expiresAt <= now then Terminal(j, Failed, LEASE_EXPIRED)
    else j.(state := Queued, token := None, claimUntil := 0)
  }

  function RecoverAll(jobs: map<JobId, Job>, ids: set<JobId>, now: int): map<JobId, Job> {
    map id | id in jobs :: if id in ids then Recover(jobs[id], now) else jobs[id]
  }

  /** A remote worker names projects and kinds; the local worker takes any job, but
      only of a kind its own runtime supports. */
  datatype Scope = Local(available: set<Kind>) | Remote(projects: set<ProjectId>, kinds: set<Kind>)

  predicate InScope(j: Job, scope: Scope) {
    match scope
    case Local(_) => true
    case Remote(projects, kinds) => j.project in projects && j.kind in kinds
  }

  function QueuedIds(jobs: map<JobId, Job>, scope: Scope): set<JobId> {
    set id | id in jobs && jobs[id].state.Queued? && InScope(jobs[id], scope)
  }

  predicate Before(jobs: map<JobId, Job>, a: JobId, b: JobId)
    requires a in jobs && b in jobs
  {
    jobs[a].createdAt < jobs[b].createdAt || (jobs[a].createdAt == jobs[b].createdAt && a < b)
  }

  ghost predicate IsFirst(jobs: map<JobId, Job>, ids: set<JobId>, first: JobId)
    requires forall id :: id in ids ==> id in jobs
  {
    first in ids && forall id :: id in ids && id != first ==> Before(jobs, first, id)
  }

  lemma {:induction false} FirstExists(jobs: map<JobId, Job>, ids: set<JobId>)
    requires forall id :: id in ids ==> id in jobs
    requires ids != {}
    ensures exists first :: IsFirst(jobs, ids, first)
    decreases |ids|
  {
    var some :| some in ids;
    if ids == {some} {
      assert IsFirst(jobs, ids, some);
    } else {
      FirstExists(jobs, ids - {some});
      var least :| IsFirst(jobs, ids - {some}, least);
      if Before(jobs, least, some) {
        assert IsFirst(jobs, ids, least);
      } else {
        forall id | id in ids && id != some ensures Before(jobs, some, id) {
          assert id == least || Before(jobs, least, id);
        }
        assert IsFirst(jobs, ids, some);
      }
    }
  }

  /** ORDER BY created_at, id: the only listing of `ids` in that order. */
  ghost function Ordered(jobs: map<JobId, Job>, ids: set<JobId>): seq<JobId>
    requires forall id :: id in ids ==> id in jobs
    decreases |ids|
  {
    if ids == {} then []
    else
      FirstExists(jobs, ids);
      var first :| IsFirst(jobs, ids, first);
      [first] + Ordered(jobs, ids - {first})
  }

  /** `live` is the set of jobs whose submitter still has an active session and write access. */
  datatype ClaimRequest = ClaimRequest(scope: Scope, token: Token, live: set<JobId>)

  /** Why a queued row is turned away, if it is. */
  function Refusal(id: JobId, j: Job, q: ClaimRequest, now: int): Option<Job> {
    if j.cancelRequested || j.expiresAt <= now then Some(CancelOr(j, QUEUE_EXPIRED))
    else if id !in q.live then Some(Terminal(j, Failed, ACCESS_CHANGED))
    else if q.scope.Local? && j.kind !in q.scope.available then Some(Terminal(j, Failed, NATIVE_UNAVAILABLE))
    else None
  }

  function Lease(j: Job, token: Token, now: int): Job {
    j.(state := Running, token := Some(token), claimUntil := now + LEASE_SECONDS, attempts := j.attempts + 1)
  }

  function TicketOf(id: JobId, j: Job, token: Token): Ticket {
    Ticket(id, token, j.project, j.kind, j.input, j.digest)
  }

  /** Rows are refused one by one until one can be leased. */
  function Scan(t: Table, rows: seq<JobId>, q: ClaimRequest, now: int): (Table, Option<Ticket>)
    requires forall id :: id in rows ==> id in t.jobs
    decreases |rows|
  {
    if rows == [] then (t, None)
    else
      var id, j := rows[0], t.jobs[rows[0]];
      match Refusal(id, j, q, now)
      case Some(ended) => Scan(Put(t, id, ended), rows[1..], q, now)
      case None =>
        (Put(t, id, Lease(j, q.token, now)).(drawnTokens := t.drawnTokens + {q.token}),
         Some(TicketOf(id, j, q.token)))
  }

  function Take<T>(s: seq<T>, n: nat): seq<T> { if |s| <= n then s else s[..n] }

  function Recovered(t: Table, now: int): Table {
    t.(jobs := RecoverAll(t.jobs, StaleIds(t.jobs, now), now))
  }

  ghost function Claim(t: Table, q: ClaimRequest, now: int): (Table, Option<Ticket>) {
    var r := Recovered(t, now);
    if |RunningIds(r.jobs)| >= MAX_RUNNING then (r, None)
    else
      OrderedListing(r.jobs, QueuedIds(r.jobs, q.scope));
      Scan(r, Take(Ordered(r.jobs, QueuedIds(r.jobs, q.scope)), BATCH), q, now)
  }

  // ---------- operations of a claim's holder ----------

  predicate Held(t: Table, c: Ticket, now: int) {
    && Has(t, c.project, c.id)
    && t.jobs[c.id].state.Running?
    && t.jobs[c.id].token == Some(c.token)
    && t.jobs[c.id].claimUntil > now
  }

  /** ownedRow: a holder past the job's deadline ends the job and owns nothing. */
  function Own(t: Table, c: Ticket, now: int): (Table, bool) {
    if !Held(t, c, now) then (t, false)
    else if t.jobs[c.id].expiresAt <= now then (Put(t, c.id, CancelOr(t.jobs[c.id], JOB_DEADLINE_EXCEEDED)), false)
    else (t, true)
  }

  /** The grant seam of remote workers. */
  function Resolve(t: Table, c: Ticket, authorized: bool, now: int): (Table, bool) {
    if !Held(t, c, now) || TicketOf(c.id, t.jobs[c.id], c.token) != c then (t, false)
    else
      var j := t.jobs[c.id];
      if j.cancelRequested || j.expiresAt <= now then (Put(t, c.id, CancelOr(j, JOB_DEADLINE_EXCEEDED)), false)
      else if !authorized then (Put(t, c.id, Terminal(j, Failed, ACCESS_CHANGED)), false)
      else (t, true)
  }

  function Renew(t: Table, c: Ticket, authorized: bool, now: int): (Table, bool) {
    var (owned, ok) := Own(t, c, now);
    if !ok then (owned, false)
    else
      var j := t.jobs[c.id];
      if j.cancelRequested then (Put(t, c.id, Terminal(j, Cancelled, CANCELLED)), false)
      else if !authorized then (Put(t, c.id, Terminal(j, Failed, ACCESS_CHANGED)), false)
      else (Put(t, c.id, j.(claimUntil := Min(now + LEASE_SECONDS, j.expiresAt))), true)
  }

  function Fail(t: Table, c: Ticket, text: string, now: int): Table {
    var (owned, ok) := Own(t, c, now);
    if !ok then owned else Put(t, c.id, CancelOr(t.jobs[c.id], Reported(text)))
  }

  function TotalBytes(outputs: seq<Output>): nat {
    if outputs == [] then 0 else TotalBytes(outputs[..|outputs| - 1]) + |outputs[|outputs| - 1].bytes|
  }

  predicate WithinBudget(outputs: seq<Output>) {
    0 < |outputs| <= MAX_OUTPUTS && TotalBytes(outputs) <= MAX_OUTPUT_BYTES
  }

  predicate Intact(o: Output) { |o.bytes| > 0 && o.digest == Sha256(o.bytes) }

  /** `bound`: the summary names this claim's kind and source. `room`: how many more
      artifacts the project's storage quota takes before it refuses one. */
  datatype Delivery = Delivery(outputs: seq<Output>, bound: bool, authorized: bool, room: nat)

  /** What stops the publication of an owned, uncancelled job: an exception, so nothing stays. */
  function Objection(d: Delivery): Option<Error> {
    if !d.authorized then Some(ACCESS_DENIED)
    else if !d.bound then Some(JOB_OUTPUT_INVALID)
    else if !WithinBudget(d.outputs) then Some(JOB_OUTPUT_SIZE)
    else FirstObjection(d.outputs, d.room)
  }

  function FirstObjection(outputs: seq<Output>, room: nat): Option<Error> {
    if outputs == [] then None
    else if !Intact(outputs[0]) then Some(JOB_OUTPUT_INVALID)
    else if room == 0 then Some(ARTIFACT_CAPACITY)
    else FirstObjection(outputs[1..], room - 1)
  }

  function Publish(t: Table, id: JobId, outputs: seq<Output>): Table
    requires id in t.jobs
  {
    Put(t, id, t.jobs[id].(state := Succeeded, token := None, claimUntil := 0, error := None))
      .(published := t.published[id := outputs])
  }

  function Finish(t: Table, c: Ticket, d: Delivery, now: int): (Table, Result<bool, Error>) {
    var (owned, ok) := Own(t, c, now);
    if !ok then (owned, Ok(false))
    else if t.jobs[c.id].cancelRequested then (Put(t, c.id, Terminal(t.jobs[c.id], Cancelled, CANCELLED)), Ok(false))
    else match Objection(d)
      case Some(e) => (t, Err(e))
      case None => (Publish(t, c.id, d.outputs), Ok(true))
  }

  // ---------- the queue listing ----------

  lemma {:induction false} OrderedListing(jobs: map<JobId, Job>, ids: set<JobId>)
    requires forall id :: id in ids ==> id in jobs
    ensures |Ordered(jobs, ids)| == |ids|
    ensures forall id :: id in Ordered(jobs, ids) <==> id in ids
    ensures forall i, k :: 0 <= i < k < |ids| ==> Before(jobs, Ordered(jobs, ids)[i], Ordered(jobs, ids)[k])
    decreases |ids|
  {
    if ids != {} {
      FirstExists(jobs, ids);
      var all := Ordered(jobs, ids);
      var first := all[0];
      var rest := Ordered(jobs, ids - {first});
      assert IsFirst(jobs, ids, first) && all == [first] + rest;
      OrderedListing(jobs, ids - {first});
      forall id ensures id in all <==> id in ids {
        assert id in all <==> id == first || id in rest;
      }
      forall i, k | 0 <= i < k < |ids| ensures Before(jobs, all[i], all[k]) {
        assert all[k] == rest[k - 1] && rest[k - 1] in rest;
        if i > 0 { assert all[i] == rest[i - 1]; }
      }
    }
  }
}
