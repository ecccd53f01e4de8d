// The durable state a PostgreSQL role operation acts on, and what the rest of the system may do to it.
module PostgreSQLMembers {
  type Id = nat
  type Lsn = nat

  // One server: running or stopped, in recovery or primary, the stored and the loaded value of
  // default_transaction_read_only, and whether a client still holds a read-write transaction.
  datatype Server = Server(running: bool, standby: bool, setting: bool, loaded: bool, sessions: bool)

  datatype Step =
    | Authorize | FenceWrites | CaptureWal | StopSource | VerifyStopped | WaitWal | PromoteTarget
    | ActivateWrites | TransferEndpoint | Repoint(follower: Id) | RewindSource
    | FenceOldPrimary | VerifyFenced

  // The immutable scope of one operation: the two servers have identifiers of their own, and the plan
  // lists the recorded steps.
  datatype Config = Config(source: Id, target: Id, followers: seq<Id>, plan: seq<Step>)

  // One durable state. `following` holds the members that stream from the target; `position` is the
  // result stored with the capture step; `lease` tells that a transition lease was obtained and
  // neither aborted nor finalized; `isolated` that the old primary was cut off; `endpoint` that the
  // writer endpoint belongs to the target. Two history variables:
  // `committed` is the highest WAL position of a transaction acknowledged to a client by the source,
  // and `lost` tells that the target left recovery without having replayed it.
  datatype World = World(
    src: Server, dst: Server, following: set<Id>, srcWal: Lsn, dstReplay: Lsn, position: Lsn,
    done: set<Step>, lease: bool, isolated: bool, endpoint: bool, committed: Lsn, lost: bool)

  // How an external call ends: success, failure after taking effect, failure without effect.
  datatype Reply = Ok | ErrAfter | ErrBefore

  predicate Primary(s: Server) {
    s.running && !s.standby
  }

  // The server acknowledges read-write transactions.
  predicate CanCommit(s: Server) {
    Primary(s) && (!s.loaded || s.sessions)
  }

  // No client can commit on the server.
  predicate WriteFenced(s: Server) {
    s.loaded && !s.sessions
  }

  predicate SinglePrimary(w: World) {
    !(Primary(w.src) && !w.isolated && Primary(w.dst))
  }

  // One step of everything that is not the executor: WAL is written, commits are acknowledged by a
  // server that accepts them, the standby replays what its source has written, and clients open
  // read-write transactions on a server whose loaded setting permits them.
  predicate EnvStep(a: World, b: World) {
    && b == a.(srcWal := b.srcWal, dstReplay := b.dstReplay, committed := b.committed,
               src := a.src.(sessions := b.src.sessions), dst := a.dst.(sessions := b.dst.sessions))
    && a.srcWal <= b.srcWal && (!a.src.running ==> b.srcWal == a.srcWal)
    && (b.committed == a.committed || (CanCommit(a.src) && a.committed < b.committed <= b.srcWal))
    && (b.src.sessions && !a.src.sessions ==> Primary(a.src) && !a.src.loaded)
    && a.dstReplay <= b.dstReplay && (b.dstReplay <= b.srcWal || b.dstReplay == a.dstReplay || !a.dst.standby)
  }

  // ALTER SYSTEM, configuration reload and termination of the clients.
  datatype Statement = Close | Open | Reload | Terminate

  function Effect(statement: Statement, s: Server): Server {
    match statement
    case Close => s.(setting := true)
    case Open => s.(setting := false)
    case Reload => s.(loaded := s.setting)
    case Terminate => s.(sessions := false)
  }

  // A statement only reaches a running server.
  function Answered(s: Server, reply: Reply): Reply {
    if s.running then reply else ErrBefore
  }

  function Run(statement: Statement, s: Server, reply: Reply): Server {
    if Answered(s, reply) == ErrBefore then s else Effect(statement, s)
  }

  function Stopped(s: Server): Server {
    s.(running := false, sessions := false)
  }

  // A start loads the stored setting; a server that runs already is left alone.
  function Started(s: Server): Server {
    if s.running then s else s.(running := true, loaded := s.setting, sessions := false)
  }

  // Moving the writer endpoint to the target.
  function Transferred(w: World, reply: Reply): World {
    w.(endpoint := w.endpoint || reply != ErrBefore)
  }

  // Recording a step; a failing record may still have been committed.
  function Recorded(w: World, step: Step, reply: Reply): World {
    if reply == ErrBefore then w else w.(done := w.done + {step})
  }

  // The target leaves recovery; what it has not replayed by then is lost.
  function Promoted(w: World, reply: Reply): World {
    if reply == ErrBefore then w
    else w.(dst := w.dst.(standby := false), lost := w.lost || (w.dst.standby && w.committed > w.dstReplay))
  }
}
