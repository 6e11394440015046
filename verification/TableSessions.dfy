/** Table occupancy under concurrent QR scans, closers and expiry.

    `scan_qr`, `close_session` and `paid_and_vacate` run as transactions at the database's
    default isolation level: every statement sees rows committed so far, writes stay private
    until COMMIT, and row locks are held until then. The first part of the module interleaves
    single statements of any number of such transactions; the second runs whole operations. */
module TableSessions {

  type TableId = nat
  type SessionId = nat
  type Pid = nat

  datatype Session = Session(table: TableId, active: bool)

  /** The transaction of one request, by the statement it executes next. `hit` records whether the
      UPDATE of `close_session` found its session still active. */
  datatype Process =
    // scan_qr
    | Probing(table: TableId)
    | Joining(table: TableId, sid: SessionId)
    | JoinMarked(table: TableId, sid: SessionId)
    | NoSession(table: TableId)
    | TableLocked(table: TableId)
    | Rechecked(table: TableId)
    | Inserted(table: TableId, sid: SessionId)
    | InsertMarked(table: TableId, sid: SessionId)
    // close_session
    | Closing(table: TableId, sid: SessionId)
    | CloseUpdated(table: TableId, sid: SessionId, hit: bool)
    | CloseCounted(table: TableId, sid: SessionId, hit: bool, last: bool)
    | CloseFreed(table: TableId, sid: SessionId, hit: bool)
    // paid_and_vacate
    | Vacating(table: TableId, sid: SessionId)
    | VacateLocked(table: TableId, sid: SessionId)
    | VacateUpdated(table: TableId, sid: SessionId)
    | VacateFreed(table: TableId, sid: SessionId)
    | Done

  /** Committed rows, the locks and uncommitted session ids by holder, and the transactions. */
  datatype World = World(
    sessions: map<SessionId, Session>, occupied: set<TableId>,
    tableLock: map<TableId, Pid>, rowLock: map<SessionId, Pid>, pending: map<SessionId, Pid>,
    procs: map<Pid, Process>)

  const START := World(map[], {}, map[], map[], map[], map[])

  predicate IsActive(sessions: map<SessionId, Session>, t: TableId, s: SessionId) {
    s in sessions && sessions[s].active && sessions[s].table == t
  }

  predicate HasActive(sessions: map<SessionId, Session>, t: TableId) {
    exists s :: s in sessions && IsActive(sessions, t, s)
  }

  predicate HasOther(sessions: map<SessionId, Session>, t: TableId, sid: SessionId) {
    exists s :: s in sessions && s != sid && IsActive(sessions, t, s)
  }

  ghost predicate AtMostOneActive(sessions: map<SessionId, Session>) {
    forall t, a, b :: IsActive(sessions, t, a) && IsActive(sessions, t, b) ==> a == b
  }

  ghost predicate OccupiedWhenActive(sessions: map<SessionId, Session>, occupied: set<TableId>) {
    forall t, s :: IsActive(sessions, t, s) ==> t in occupied
  }

  // ----- statements -----

  predicate TableAvailable(w: World, t: TableId, p: Pid) { t in w.tableLock ==> w.tableLock[t] == p }
  predicate RowAvailable(w: World, s: SessionId, p: Pid) { s in w.rowLock ==> w.rowLock[s] == p }

  /** COMMIT or ROLLBACK: drop the transaction's locks and its private rows. */
  function Finish(w: World, p: Pid): World {
    w.(tableLock := map t | t in w.tableLock && w.tableLock[t] != p :: w.tableLock[t],
       rowLock := map s | s in w.rowLock && w.rowLock[s] != p :: w.rowLock[s],
       pending := map s | s in w.pending && w.pending[s] != p :: w.pending[s],
       procs := w.procs[p := Done])
  }

  function Move(w: World, p: Pid, next: Process): World { w.(procs := w.procs[p := next]) }

  function LockTable(w: World, p: Pid, t: TableId, next: Process): World {
    if TableAvailable(w, t, p) then Move(w, p, next).(tableLock := w.tableLock[t := p]) else w
  }

  function LockRow(w: World, p: Pid, s: SessionId, next: Process): World {
    if RowAvailable(w, s, p) then Move(w, p, next).(rowLock := w.rowLock[s := p]) else w
  }

  function Deactivate(sessions: map<SessionId, Session>, sid: SessionId): map<SessionId, Session> {
    if sid in sessions then sessions[sid := sessions[sid].(active := false)] else sessions
  }

  /** Transaction `p` executes its next statement; a statement that must wait for a lock leaves the
      world as it is. `pick` is the session the probe finds or the id drawn for a new one; `flag`
      says that the scanning device is known, or that the table is reserved for the waitlist. */
  function Advance(w: World, p: Pid, pick: SessionId, flag: bool): World
    requires p in w.procs
  {
    match w.procs[p]
    case Probing(t) =>
      if !HasActive(w.sessions, t) then Move(w, p, NoSession(t))
      else if IsActive(w.sessions, t, pick) then LockRow(w, p, pick, Joining(t, pick))
      else w
    case Joining(t, sid) => if flag then LockTable(w, p, t, JoinMarked(t, sid)) else Finish(w, p)
    case JoinMarked(t, sid) => Finish(w.(occupied := w.occupied + {t}), p)
    case NoSession(t) => LockTable(w, p, t, TableLocked(t))
    case TableLocked(t) => if flag || HasActive(w.sessions, t) then Finish(w, p) else Move(w, p, Rechecked(t))
    case Rechecked(t) =>
      if pick in w.sessions || pick in w.pending then w
      else Move(w, p, Inserted(t, pick)).(pending := w.pending[pick := p])
    case Inserted(t, sid) => Move(w, p, InsertMarked(t, sid))
    case InsertMarked(t, sid) =>
      Finish(w.(sessions := w.sessions[sid := Session(t, true)], occupied := w.occupied + {t}), p)
    case Closing(t, sid) =>
      if IsActive(w.sessions, t, sid) then LockRow(w, p, sid, CloseUpdated(t, sid, true))
      else Move(w, p, CloseUpdated(t, sid, false))
    case CloseUpdated(t, sid, hit) => Move(w, p, CloseCounted(t, sid, hit, !HasOther(w.sessions, t, sid)))
    case CloseCounted(t, sid, hit, last) =>
      if last then LockTable(w, p, t, CloseFreed(t, sid, hit))
      else Finish(w.(sessions := if hit then Deactivate(w.sessions, sid) else w.sessions), p)
    case CloseFreed(t, sid, hit) =>
      Finish(w.(sessions := if hit then Deactivate(w.sessions, sid) else w.sessions, occupied := w.occupied - {t}), p)
    case Vacating(t, sid) =>
      if IsActive(w.sessions, t, sid) then LockRow(w, p, sid, VacateLocked(t, sid)) else Finish(w, p)
    case VacateLocked(t, sid) => Move(w, p, VacateUpdated(t, sid))
    case VacateUpdated(t, sid) => LockTable(w, p, t, VacateFreed(t, sid))
    case VacateFreed(t, sid) =>
      Finish(w.(sessions := Deactivate(w.sessions, sid), occupied := w.occupied - {t}), p)
    case Done => w
  }

  datatype Step =
    | Begin(p: Pid, first: Process)
    | Next(p: Pid, pick: SessionId, flag: bool)
    | Rollback(p: Pid)
    | Expire(sid: SessionId)

  /** `close_session` validates its session before its transaction opens; `paid_and_vacate` only needs
      a session that exists, and the scan checks nothing beforehand. */
  predicate MayBegin(w: World, first: Process) {
    match first
    case Probing(_) => true
    case Closing(t, sid) => IsActive(w.sessions, t, sid)
    case Vacating(t, sid) => sid in w.sessions && w.sessions[sid].table == t
    case _ => false
  }

  function Apply(w: World, step: Step): World {
    match step
    case Begin(p, first) => if p in w.procs || !MayBegin(w, first) then w else Move(w, p, first)
    case Next(p, pick, flag) => if p in w.procs then Advance(w, p, pick, flag) else w
    case Rollback(p) => if p in w.procs then Finish(w, p) else w
    case Expire(sid) => if sid in w.rowLock then w else w.(sessions := Deactivate(w.sessions, sid))
  }

  function Run(w: World, steps: seq<Step>): World {
    if steps == [] then w else Apply(Run(w, steps[..|steps| - 1]), steps[|steps| - 1])
  }

  // ----- what each transaction relies on -----

  ghost predicate HasTable(w: World, p: Pid, t: TableId) { t in w.tableLock && w.tableLock[t] == p }
  ghost predicate HasRow(w: World, p: Pid, s: SessionId) { s in w.rowLock && w.rowLock[s] == p }

  /** A transaction that saw its session active holds the row, so the session still is; one that
      passed the recheck holds the table, so the table is still without a session. */
  ghost predicate ProcInv(w: World, p: Pid)
    requires p in w.procs
  {
    match w.procs[p]
    case Joining(t, sid) => HasRow(w, p, sid) && IsActive(w.sessions, t, sid)
    case JoinMarked(t, sid) => HasRow(w, p, sid) && HasTable(w, p, t) && IsActive(w.sessions, t, sid)
    case TableLocked(t) => HasTable(w, p, t)
    case Rechecked(t) => HasTable(w, p, t) && !HasActive(w.sessions, t)
    case Inserted(t, sid) => HasTable(w, p, t) && !HasActive(w.sessions, t) && sid in w.pending && w.pending[sid] == p
    case InsertMarked(t, sid) => HasTable(w, p, t) && !HasActive(w.sessions, t) && sid in w.pending && w.pending[sid] == p
    case CloseUpdated(t, sid, hit) => hit ==> HasRow(w, p, sid) && IsActive(w.sessions, t, sid)
    case CloseCounted(t, sid, hit, last) => hit ==> HasRow(w, p, sid) && IsActive(w.sessions, t, sid)
    case CloseFreed(t, sid, hit) => HasTable(w, p, t) && (hit ==> HasRow(w, p, sid) && IsActive(w.sessions, t, sid))
    case VacateLocked(t, sid) => HasRow(w, p, sid) && IsActive(w.sessions, t, sid)
    case VacateUpdated(t, sid) => HasRow(w, p, sid) && IsActive(w.sessions, t, sid)
    case VacateFreed(t, sid) => HasTable(w, p, t) && HasRow(w, p, sid) && IsActive(w.sessions, t, sid)
    case _ => true
  }

  ghost predicate Inv(w: World) {
    && AtMostOneActive(w.sessions)
    && w.pending.Keys !! w.sessions.Keys
    && forall p :: p in w.procs ==> ProcInv(w, p)
  }

  /** The locks and private rows of `q` survive what another transaction does. */
  ghost predicate KeepsFor(w: World, w': World, q: Pid) {
    && (forall t :: HasTable(w, q, t) ==> HasTable(w', q, t))
    && (forall s :: HasRow(w, q, s) ==> HasRow(w', q, s))
    && (forall s :: s in w.pending && w.pending[s] == q ==> s in w'.pending && w'.pending[s] == q)
    && (q in w.procs ==> q in w'.procs && w'.procs[q] == w.procs[q])
  }

  /** Session rows change only where no other transaction relies on them. */
  ghost predicate SafeChange(w: World, w': World, q: Pid) {
    && (forall t, s :: IsActive(w.sessions, t, s) && HasRow(w, q, s) ==> IsActive(w'.sessions, t, s))
    && (forall t :: HasTable(w, q, t) && !HasActive(w.sessions, t) ==> !HasActive(w'.sessions, t))
  }

  lemma OtherUnaffected(w: World, w': World, q: Pid)
    requires q in w.procs && ProcInv(w, q) && KeepsFor(w, w', q) && SafeChange(w, w', q)
    ensures q in w'.procs && ProcInv(w', q)
  {
  }

  lemma FinishKeeps(w: World, p: Pid, q: Pid)
    requires p != q
    ensures KeepsFor(w, Finish(w, p), q)
  {
  }

  lemma DeactivateFacts(sessions: map<SessionId, Session>, sid: SessionId)
    ensures forall t, s :: IsActive(Deactivate(sessions, sid), t, s) <==> IsActive(sessions, t, s) && s != sid
    ensures forall t :: HasActive(Deactivate(sessions, sid), t) ==> HasActive(sessions, t)
    ensures AtMostOneActive(sessions) ==> AtMostOneActive(Deactivate(sessions, sid))
    ensures Deactivate(sessions, sid).Keys == sessions.Keys
  {
    var after := Deactivate(sessions, sid);
    forall t, s ensures IsActive(after, t, s) <==> IsActive(sessions, t, s) && s != sid {}
    forall t | HasActive(after, t) ensures HasActive(sessions, t) {
      var s :| s in after && IsActive(after, t, s);
      assert IsActive(sessions, t, s);
    }
  }

  lemma OpenFacts(sessions: map<SessionId, Session>, sid: SessionId, t: TableId)
    requires sid !in sessions && !HasActive(sessions, t)
    ensures var after := sessions[sid := Session(t, true)];
            && (forall t', s :: IsActive(after, t', s) <==> IsActive(sessions, t', s) || (s == sid && t' == t))
            && (forall t' :: t' != t && HasActive(after, t') ==> HasActive(sessions, t'))
            && (AtMostOneActive(sessions) ==> AtMostOneActive(after))
  {
    var after := sessions[sid := Session(t, true)];
    forall t', s ensures IsActive(after, t', s) <==> IsActive(sessions, t', s) || (s == sid && t' == t) {}
    forall t' | t' != t && HasActive(after, t') ensures HasActive(sessions, t') {
      var s :| s in after && IsActive(after, t', s);
      assert IsActive(sessions, t', s);
    }
  }

  predicate Commits(proc: Process) {
    proc.InsertMarked? || proc.CloseFreed? || proc.VacateFreed? || (proc.CloseCounted? && !proc.last)
  }

  /** A step of `p` that changes no committed session row keeps the invariant if `p` itself is fine. */
  lemma QuietStep(w: World, w': World, p: Pid)
    requires Inv(w) && p in w.procs && w'.sessions == w.sessions && w'.pending.Keys !! w.sessions.Keys
    requires p in w'.procs && w'.procs.Keys == w.procs.Keys && ProcInv(w', p)
    requires forall q :: q in w.procs && q != p ==> KeepsFor(w, w', q)
    ensures Inv(w')
  {
    forall q | q in w'.procs ensures ProcInv(w', q) {
      if q != p {
        OtherUnaffected(w, w', q);
      }
    }
  }

  lemma FinishKeepsInv(w: World, p: Pid)
    requires Inv(w) && p in w.procs
    ensures Inv(Finish(w, p))
  {
    forall q | q in w.procs && q != p ensures KeepsFor(w, Finish(w, p), q) {
      FinishKeeps(w, p, q);
    }
    QuietStep(w, Finish(w, p), p);
  }

  lemma MoveKeepsInv(w: World, p: Pid, next: Process)
    requires Inv(w) && p in w.procs && ProcInv(Move(w, p, next), p)
    ensures Inv(Move(w, p, next))
  {
    QuietStep(w, Move(w, p, next), p);
  }

  lemma LockTableKeepsInv(w: World, p: Pid, t: TableId, next: Process)
    requires Inv(w) && p in w.procs
    requires TableAvailable(w, t, p) ==> ProcInv(LockTable(w, p, t, next), p)
    ensures Inv(LockTable(w, p, t, next))
  {
    if TableAvailable(w, t, p) {
      QuietStep(w, LockTable(w, p, t, next), p);
    }
  }

  lemma LockRowKeepsInv(w: World, p: Pid, s: SessionId, next: Process)
    requires Inv(w) && p in w.procs
    requires RowAvailable(w, s, p) ==> ProcInv(LockRow(w, p, s, next), p)
    ensures Inv(LockRow(w, p, s, next))
  {
    if RowAvailable(w, s, p) {
      QuietStep(w, LockRow(w, p, s, next), p);
    }
  }

  lemma OccupyKeepsInv(w: World, t: TableId)
    requires Inv(w)
    ensures Inv(w.(occupied := w.occupied + {t}))
  {
    var w0 := w.(occupied := w.occupied + {t});
    forall q | q in w0.procs ensures ProcInv(w0, q) { OtherUnaffected(w, w0, q); }
  }

  lemma QuietScan(w: World, p: Pid, pick: SessionId, flag: bool)
    requires Inv(w) && p in w.procs
    requires var proc := w.procs[p];
             proc.Probing? || proc.Joining? || proc.JoinMarked? || proc.NoSession? || proc.TableLocked?
             || proc.Rechecked? || proc.Inserted?
    ensures Inv(Advance(w, p, pick, flag))
  {
    assert ProcInv(w, p);
    FinishKeepsInv(w, p);
    match w.procs[p]
    case Probing(t) =>
      if !HasActive(w.sessions, t) { MoveKeepsInv(w, p, NoSession(t)); }
      else if IsActive(w.sessions, t, pick) { LockRowKeepsInv(w, p, pick, Joining(t, pick)); }
    case Joining(t, sid) => LockTableKeepsInv(w, p, t, JoinMarked(t, sid));
    case JoinMarked(t, sid) => OccupyKeepsInv(w, t); FinishKeepsInv(w.(occupied := w.occupied + {t}), p);
    case NoSession(t) => LockTableKeepsInv(w, p, t, TableLocked(t));
    case TableLocked(t) => if !flag && !HasActive(w.sessions, t) { MoveKeepsInv(w, p, Rechecked(t)); }
    case Rechecked(t) => if pick !in w.sessions && pick !in w.pending { QuietStep(w, Advance(w, p, pick, flag), p); }
    case Inserted(t, sid) => MoveKeepsInv(w, p, InsertMarked(t, sid));
  }

  lemma QuietClose(w: World, p: Pid, pick: SessionId, flag: bool)
    requires Inv(w) && p in w.procs
    requires var proc := w.procs[p];
             proc.Closing? || proc.CloseUpdated? || (proc.CloseCounted? && proc.last) || proc.Vacating?
             || proc.VacateLocked? || proc.VacateUpdated?
    ensures Inv(Advance(w, p, pick, flag))
  {
    assert ProcInv(w, p);
    FinishKeepsInv(w, p);
    match w.procs[p]
    case Closing(t, sid) =>
      if IsActive(w.sessions, t, sid) { LockRowKeepsInv(w, p, sid, CloseUpdated(t, sid, true)); }
      else { MoveKeepsInv(w, p, CloseUpdated(t, sid, false)); }
    case CloseUpdated(t, sid, hit) => MoveKeepsInv(w, p, CloseCounted(t, sid, hit, !HasOther(w.sessions, t, sid)));
    case CloseCounted(t, sid, hit, last) => LockTableKeepsInv(w, p, t, CloseFreed(t, sid, hit));
    case Vacating(t, sid) => if IsActive(w.sessions, t, sid) { LockRowKeepsInv(w, p, sid, VacateLocked(t, sid)); }
    case VacateLocked(t, sid) => MoveKeepsInv(w, p, VacateUpdated(t, sid));
    case VacateUpdated(t, sid) => LockTableKeepsInv(w, p, t, VacateFreed(t, sid));
  }

  lemma CommitStatement(w: World, p: Pid, pick: SessionId, flag: bool)
    requires Inv(w) && p in w.procs && Commits(w.procs[p])
    ensures Inv(Advance(w, p, pick, flag))
  {
    var w' := Advance(w, p, pick, flag);
    var proc := w.procs[p];
    assert ProcInv(w, p);
    if proc.InsertMarked? {
      OpenFacts(w.sessions, proc.sid, proc.table);
    } else {
      DeactivateFacts(w.sessions, proc.sid);
    }
    forall q | q in w'.procs ensures ProcInv(w', q) {
      if q != p {
        FinishKeeps(w, p, q);
        assert SafeChange(w, w', q);
        OtherUnaffected(w, w', q);
      }
    }
  }

  lemma BeginKeepsInv(w: World, step: Step)
    requires Inv(w) && step.Begin?
    ensures Inv(Apply(w, step))
  {
    var w' := Apply(w, step);
    forall q | q in w'.procs ensures ProcInv(w', q) {
      if q in w.procs { OtherUnaffected(w, w', q); }
    }
  }

  lemma RollbackKeepsInv(w: World, step: Step)
    requires Inv(w) && step.Rollback?
    ensures Inv(Apply(w, step))
  {
    var w' := Apply(w, step);
    forall q | q in w'.procs ensures ProcInv(w', q) {
      if q != step.p { FinishKeeps(w, step.p, q); OtherUnaffected(w, w', q); }
    }
  }

  lemma ExpireKeepsInv(w: World, step: Step)
    requires Inv(w) && step.Expire?
    ensures Inv(Apply(w, step))
  {
    var w' := Apply(w, step);
    DeactivateFacts(w.sessions, step.sid);
    forall q | q in w'.procs ensures ProcInv(w', q) {
      OtherUnaffected(w, w', q);
    }
  }

  lemma ApplyKeepsInv(w: World, step: Step)
    requires Inv(w)
    ensures Inv(Apply(w, step))
  {
    match step
    case Begin(p, first) => BeginKeepsInv(w, step);
    case Rollback(p) => RollbackKeepsInv(w, step);
    case Expire(sid) => ExpireKeepsInv(w, step);
    case Next(p, pick, flag) =>
      if p in w.procs {
        if Commits(w.procs[p]) {
          CommitStatement(w, p, pick, flag);
        } else if w.procs[p].Closing? || w.procs[p].CloseUpdated? || w.procs[p].CloseCounted?
                  || w.procs[p].Vacating? || w.procs[p].VacateLocked? || w.procs[p].VacateUpdated? {
          QuietClose(w, p, pick, flag);
        } else if !w.procs[p].Done? {
          QuietScan(w, p, pick, flag);
        }
      }
  }

  lemma {:induction false} RunKeepsInv(steps: seq<Step>)
    ensures Inv(Run(START, steps))
  {
    if steps != [] {
      RunKeepsInv(steps[..|steps| - 1]);
      ApplyKeepsInv(Run(START, steps[..|steps| - 1]), steps[|steps| - 1]);
    }
  }

  /** Strict rule of the service: under every interleaving of statements a table has at most one
      active session, without help from the partial unique index. */
  lemma OneActiveSessionPerTable(steps: seq<Step>, t: TableId, a: SessionId, b: SessionId)
    requires IsActive(Run(START, steps).sessions, t, a) && IsActive(Run(START, steps).sessions, t, b)
    ensures a == b
  {
    RunKeepsInv(steps);
  }

  // ----- occupancy -----

  /** `close_session` is about to free a table although its own UPDATE changed no row. */
  predicate IdleFree(w: World, step: Step) {
    step.Next? && step.p in w.procs && w.procs[step.p].CloseFreed? && !w.procs[step.p].hit
  }

  /** Meanwhile a newer session sits there. */
  predicate FreesUnderSession(w: World, step: Step) {
    IdleFree(w, step) && HasActive(w.sessions, w.procs[step.p].table)
  }

  /** Exact effect of one statement on "a table with an active session is marked occupied": every
      statement keeps it, except a closer that freed the table without having closed anything while
      a newer session sits there. */
  lemma OccupancyKeptIff(w: World, step: Step)
    requires Inv(w) && OccupiedWhenActive(w.sessions, w.occupied)
    ensures var w' := Apply(w, step);
            OccupiedWhenActive(w'.sessions, w'.occupied)
            <==> !FreesUnderSession(w, step)
  {
    match step
    case Begin(_, _) =>
    case Rollback(_) =>
    case Expire(sid) => DeactivateFacts(w.sessions, sid);
    case Next(p, pick, flag) =>
      if p in w.procs && Commits(w.procs[p]) { CommitOccupancy(w, step); }
  }

  lemma CommitOccupancy(w: World, step: Step)
    requires Inv(w) && OccupiedWhenActive(w.sessions, w.occupied)
    requires step.Next? && step.p in w.procs && Commits(w.procs[step.p])
    ensures var w' := Apply(w, step);
            OccupiedWhenActive(w'.sessions, w'.occupied)
            <==> !FreesUnderSession(w, step)
  {
    var proc := w.procs[step.p];
    assert ProcInv(w, step.p);
    if proc.InsertMarked? {
      OpenFacts(w.sessions, proc.sid, proc.table);
    } else {
      DeactivateFacts(w.sessions, proc.sid);
      if proc.CloseFreed? && !proc.hit && HasActive(w.sessions, proc.table) {
        var s :| s in w.sessions && IsActive(w.sessions, proc.table, s);
        assert IsActive(Apply(w, step).sessions, proc.table, s);
      }
    }
  }

  predicate NeverFreesUnderSession(steps: seq<Step>) {
    steps == []
    || var n := |steps| - 1;
       NeverFreesUnderSession(steps[..n]) && !FreesUnderSession(Run(START, steps[..n]), steps[n])
  }

  /** After every step of the run, a table with an active session is marked occupied. */
  ghost predicate AlwaysOccupied(steps: seq<Step>) {
    && OccupiedWhenActive(Run(START, steps).sessions, Run(START, steps).occupied)
    && (steps == [] || AlwaysOccupied(steps[..|steps| - 1]))
  }

  /** Occupancy holds throughout an interleaving exactly when no `close_session` frees a table under a
      session without having closed one; `paid_and_vacate`, which counts nothing, needs no condition. */
  lemma {:induction false} OccupiedThroughoutIff(steps: seq<Step>)
    ensures AlwaysOccupied(steps) <==> NeverFreesUnderSession(steps)
  {
    if steps != [] {
      var front := steps[..|steps| - 1];
      OccupiedThroughoutIff(front);
      RunKeepsInv(front);
      if AlwaysOccupied(front) {
        OccupancyKeptIff(Run(START, front), steps[|steps| - 1]);
      }
    }
  }

  ghost predicate Reachable(w: World) {
    exists steps :: w == Run(START, steps)
  }

  lemma ReachNext(w: World, step: Step)
    requires Reachable(w)
    ensures Reachable(Apply(w, step))
  {
    var steps :| w == Run(START, steps);
    assert (steps + [step])[..|steps|] == steps;
    assert Run(START, steps + [step]) == Apply(w, step);
  }

  /** A scan of table 7 by transaction `n`: its probe finds nothing. */
  lemma ScanProbes(w: World, n: Pid) returns (w': World)
    requires Reachable(w) && n !in w.procs && !HasActive(w.sessions, 7)
    ensures Reachable(w') && w' == w.(procs := w.procs[n := NoSession(7)])
  {
    ReachNext(w, Begin(n, Probing(7)));
    var w1 := Apply(w, Begin(n, Probing(7)));
    assert w1 == w.(procs := w.procs[n := Probing(7)]);
    ReachNext(w1, Next(n, n, false));
    w' := Apply(w1, Next(n, n, false));
  }

  /** It locks the table and rechecks. */
  lemma ScanChecks(w: World, n: Pid) returns (w': World)
    requires Reachable(w) && n in w.procs && w.procs[n] == NoSession(7) && !HasActive(w.sessions, 7)
        && 7 !in w.tableLock
    ensures Reachable(w') && w' == w.(procs := w.procs[n := Rechecked(7)], tableLock := w.tableLock[7 := n])
  {
    ReachNext(w, Next(n, n, false));
    var w1 := Apply(w, Next(n, n, false));
    assert w1 == w.(procs := w.procs[n := TableLocked(7)], tableLock := w.tableLock[7 := n]);
    ReachNext(w1, Next(n, n, false));
    w' := Apply(w1, Next(n, n, false));
  }

  /** It inserts its session and marks the table, both still private. */
  lemma {:induction false} ScanInserts(w: World, n: Pid) returns (w': World)
    requires Reachable(w) && n in w.procs && w.procs[n] == Rechecked(7)
    requires n !in w.sessions && w.pending == map[]
    ensures Reachable(w') && w' == w.(procs := w.procs[n := InsertMarked(7, n)], pending := map[n := n])
  {
    var next := Next(n, n, false);
    ReachNext(w, next);
    var w1 := Apply(w, next);
    assert w1 == w.(procs := w.procs[n := Inserted(7, n)], pending := map[n := n]);
    ReachNext(w1, next);
    w' := Apply(w1, next);
    assert w'.procs == w.procs[n := InsertMarked(7, n)];
  }

  /** From there to its COMMIT. */
  lemma {:induction false} ScanCommits(w: World, n: Pid) returns (w': World)
    requires Reachable(w) && n in w.procs && w.procs[n] == Rechecked(7) && w.tableLock == map[7 := n]
    requires n !in w.sessions && w.pending == map[] && w.rowLock == map[]
    ensures Reachable(w') && w'.sessions == w.sessions[n := Session(7, true)] && 7 in w'.occupied
    ensures w'.procs == w.procs[n := Done] && w'.tableLock == map[] && w'.pending == map[] && w'.rowLock == map[]
  {
    var w1 := ScanInserts(w, n);
    ReachNext(w1, Next(n, n, false));
    w' := Apply(w1, Next(n, n, false));
    assert w'.procs == w.procs[n := Done];
  }

  /** A closer that validated session 1, which then expires. */
  lemma CloserIsOvertaken(w: World) returns (w': World)
    requires Reachable(w) && 9 !in w.procs && w.sessions == map[1 := Session(7, true)] && w.rowLock == map[]
    ensures Reachable(w') && w' == w.(procs := w.procs[9 := Closing(7, 1)], sessions := map[1 := Session(7, false)])
  {
    ReachNext(w, Begin(9, Closing(7, 1)));
    var w1 := Apply(w, Begin(9, Closing(7, 1)));
    assert w1 == w.(procs := w.procs[9 := Closing(7, 1)]);
    ReachNext(w1, Expire(1));
    w' := Apply(w1, Expire(1));
    assert w'.sessions == map[1 := Session(7, false)];
  }

  /** Its UPDATE hits nothing. */
  lemma {:induction false} CloserUpdates(w: World) returns (w': World)
    requires Reachable(w) && 9 in w.procs && w.procs[9] == Closing(7, 1) && w.sessions == map[1 := Session(7, false)]
    ensures Reachable(w') && w' == w.(procs := w.procs[9 := CloseUpdated(7, 1, false)])
  {
    assert !IsActive(w.sessions, 7, 1);
    ReachNext(w, Next(9, 0, false));
    w' := Apply(w, Next(9, 0, false));
  }

  /** It counts no other session. */
  lemma {:induction false} CloserCounts(w: World) returns (w': World)
    requires Reachable(w) && 9 in w.procs && w.procs[9] == CloseUpdated(7, 1, false)
        && w.sessions == map[1 := Session(7, false)]
    ensures Reachable(w') && w' == w.(procs := w.procs[9 := CloseCounted(7, 1, false, true)])
  {
    assert !HasOther(w.sessions, 7, 1);
    ReachNext(w, Next(9, 0, false));
    w' := Apply(w, Next(9, 0, false));
  }

  lemma CloserFindsNothing(w: World) returns (w': World)
    requires Reachable(w) && 9 !in w.procs && w.sessions == map[1 := Session(7, true)] && w.rowLock == map[]
    ensures Reachable(w') && w'.procs == w.procs[9 := CloseCounted(7, 1, false, true)]
    ensures w'.sessions == map[1 := Session(7, false)] && w'.tableLock == w.tableLock && w'.pending == w.pending
    ensures w'.rowLock == map[]
  {
    var w1 := CloserIsOvertaken(w);
    var w2 := CloserUpdates(w1);
    w' := CloserCounts(w2);
    assert w'.procs == w.procs[9 := CloseCounted(7, 1, false, true)];
  }

  lemma CloserFrees(w: World) returns (w': World)
    requires Reachable(w) && 9 in w.procs && w.procs[9] == CloseCounted(7, 1, false, true) && w.tableLock == map[]
    ensures Reachable(w') && w'.sessions == w.sessions && 7 !in w'.occupied
  {
    var next := Next(9, 0, false);
    ReachNext(w, next);
    var w1 := Apply(w, next);
    assert w1.procs[9] == CloseFreed(7, 1, false) && w1.sessions == w.sessions;
    ReachNext(w1, next);
    w' := Apply(w1, next);
  }

  /** The race behind the condition. A closer validates session 1; the session expires; the closer's
      UPDATE hits nothing and it counts zero others; a scan opens session 2 and commits; the closer
      then frees the table under session 2. */
  lemma RaceFreesAnOccupiedTable()
    ensures exists w, t, s :: Reachable(w) && IsActive(w.sessions, t, s) && t !in w.occupied
  {
    assert Run(START, []) == START;
    var w := ScanProbes(START, 1);
    w := ScanChecks(w, 1);
    w := ScanCommits(w, 1);
    w := CloserFindsNothing(w);
    w := ScanProbes(w, 2);
    w := ScanChecks(w, 2);
    w := ScanCommits(w, 2);
    w := CloserFrees(w);
    assert IsActive(w.sessions, 7, 2);
  }

  // ----- whole operations -----

  /** The same rows, with each service call as one step. */
  class FloorPlan {
    var sessions: map<SessionId, Session>
    var occupied: set<TableId>

    ghost predicate Valid()
      reads this
    {
      AtMostOneActive(sessions) && OccupiedWhenActive(sessions, occupied)
    }

    constructor ()
      ensures Valid() && sessions == map[] && occupied == {}
    {
      sessions, occupied := map[], {};
    }

    /** Returns the session the caller ends up on, and whether it is new; `ok` is false when the
        table is reserved. Never opens a session on a table that has one. */
    method ScanQr(table: TableId, freshId: SessionId, knownDevice: bool, reserved: bool)
        returns (ok: bool, sid: SessionId, isNew: bool)
      requires Valid() && freshId !in sessions
      modifies this
      ensures Valid()
      ensures ok && isNew <==> !HasActive(old(sessions), table) && !reserved
      ensures ok <==> HasActive(old(sessions), table) || !reserved
      ensures ok ==> IsActive(sessions, table, sid)
      ensures sessions == if ok && isNew then old(sessions)[sid := Session(table, true)] else old(sessions)
      ensures occupied == if ok && (isNew || knownDevice) then old(occupied) + {table} else old(occupied)
    {
      if HasActive(sessions, table) {
        sid :| sid in sessions && IsActive(sessions, table, sid);
        if knownDevice {
          occupied := occupied + {table};
        }
        return true, sid, false;
      }
      if reserved {
        return false, freshId, false;
      }
      OpenFacts(sessions, freshId, table);
      sessions := sessions[freshId := Session(table, true)];
      occupied := occupied + {table};
      return true, freshId, true;
    }

    /** Fails when the session is no longer active; otherwise closes it and frees its table, since no
        other session of the table can be active. */
    method CloseSession(sid: SessionId) returns (ok: bool)
      requires Valid() && sid in sessions
      modifies this
      ensures Valid()
      ensures ok <==> old(sessions)[sid].active
      ensures sessions == if ok then Deactivate(old(sessions), sid) else old(sessions)
      ensures occupied == if ok then old(occupied) - {old(sessions)[sid].table} else old(occupied)
    {
      if !sessions[sid].active {
        return false;
      }
      var table := sessions[sid].table;
      assert IsActive(sessions, table, sid);
      DeactivateFacts(sessions, sid);
      sessions := Deactivate(sessions, sid);
      if !HasOther(sessions, table, sid) {
        occupied := occupied - {table};
      }
      ok := true;
    }

    /** Frees the table without counting sessions; a session that is already closed is left alone. */
    method PaidAndVacate(sid: SessionId, settled: bool, force: bool) returns (ok: bool)
      requires Valid() && sid in sessions
      modifies this
      ensures Valid()
      ensures ok <==> settled || force
      ensures var closes := ok && old(sessions)[sid].active;
              sessions == (if closes then Deactivate(old(sessions), sid) else old(sessions))
              && occupied == (if closes then old(occupied) - {old(sessions)[sid].table} else old(occupied))
    {
      if !settled && !force {
        return false;
      }
      if sessions[sid].active {
        var table := sessions[sid].table;
        assert IsActive(sessions, table, sid);
        DeactivateFacts(sessions, sid);
        sessions := Deactivate(sessions, sid);
        occupied := occupied - {table};
      }
      ok := true;
    }

    /** Expiry closes sessions and leaves the tables marked. */
    method ExpireInactive(stale: set<SessionId>) returns (count: nat)
      requires Valid()
      modifies this
      ensures Valid() && occupied == old(occupied)
      ensures sessions.Keys == old(sessions).Keys
      ensures forall t, s :: IsActive(sessions, t, s) <==> IsActive(old(sessions), t, s) && s !in stale
      ensures count == |set s | s in stale && s in old(sessions) && old(sessions)[s].active|
    {
      var hits := set s | s in stale && s in sessions && sessions[s].active;
      count := |hits|;
      sessions := map s | s in sessions :: if s in hits then sessions[s].(active := false) else sessions[s];
      forall t, s ensures IsActive(sessions, t, s) <==> IsActive(old(sessions), t, s) && s !in stale {}
    }
  }
}
