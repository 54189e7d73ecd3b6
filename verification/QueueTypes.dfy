/** The data of the command queue: entries, the read-only part of the object database,
    and the scheduler's state with the bookkeeping its theorems speak about. */
module QueueTypes {
  const NOTHING: int := -1
  const INT_MAX: int := 0x7fff_ffff
  const INT_MIN: int := -0x8000_0000
  const A_SEMAPHORE: int := 47

  type Dbref = int

  /** What the queue reads of the object database and of the configuration. */
  datatype Db = Db(
    owner: Dbref -> Dbref,        // Owner(x)
    good: Dbref -> bool,          // Good_obj(x)
    isPlayer: Dbref -> bool,      // Typeof(x) == TYPE_PLAYER
    goodOwner: Dbref -> bool,     // Good_owner(x)
    exempt: Dbref -> bool,        // Wizard(x), Free_Money(x) or Immortal(x)
    queueMax: Dbref -> int,       // QueueMax(x)
    waitCost: nat,
    maxPid: nat,
    dbTop: nat)
  {
    /** payfor and giveto move no money for this object. */
    predicate Free(x: Dbref) {
      exempt(x) || exempt(owner(x))
    }

    /** Every valid object has a valid owner, and NOTHING is no object. */
    ghost predicate Consistent() {
      && (forall x: Dbref {:trigger good(x)} :: good(x) ==> 0 <= x < dbTop && goodOwner(owner(x)))
      && (forall x: Dbref {:trigger goodOwner(x)} :: goodOwner(x) ==> good(x))
    }
  }

  /** One BQUE record. `id` is a serial number the program does not keep: PIDs are
      reused, serial numbers are not. */
  datatype Entry = Entry(
    id: nat,
    player: Dbref,
    cause: Dbref,
    pid: int,
    waittime: int,
    sem: Dbref,
    attr: int)

  /** Selections of entries used by the operations and by the counting invariants. */
  datatype Filter =
    | Wanted(ptarg: Dbref, otarg: Dbref)   // cque_que_want
    | OnSem(sem: Dbref, attr: int)         // cque_nfy_que; attr 0 means any
    | TimedOut(now: int)                   // expired timed semaphore waits
    | LiveOf(o: Dbref)                     // live entries of an owner
    | PaidBy(a: Dbref)                     // live entries whose deposit came from an account
    | LiveIs(id: nat)                      // the live entry with this serial number
    | Linked(pid: int, id: nat)            // the entry with this PID and serial number
    | Is(id: nat)                          // the entry with this serial number
  {
    /** Filters that pick live entries only. */
    predicate Alive() {
      LiveOf? || PaidBy? || LiveIs?
    }

    /** Filters that do not change as an entry moves through the queues or is halted. */
    predicate Fixed() {
      Linked? || Is?
    }

    predicate Picks(c: Db, e: Entry) {
      match this
      case Wanted(p, o) =>
        c.good(e.player) && (p == NOTHING || p == c.owner(e.player)) && (o == NOTHING || o == e.player)
      case OnSem(s, a) => e.sem == s && (e.attr == a || a == 0)
      case TimedOut(now) => e.waittime != 0 && e.waittime <= now
      case LiveOf(o) => e.player != NOTHING && c.owner(e.player) == o
      case PaidBy(a) => e.player != NOTHING && c.owner(e.player) == a && !c.Free(e.player)
      case LiveIs(id) => e.player != NOTHING && e.id == id
      case Linked(pid, id) => e.pid == pid && e.id == id
      case Is(id) => e.id == id
    }
  }

  /** The scheduler. */
  datatype State = State(
    pq: seq<Entry>,               // qfirst .. qlast: the run queue
    oq: seq<Entry>,               // qlfirst .. qllast: object-caused, one second late
    wq: seq<Entry>,               // qwait
    sq: seq<Entry>,               // qsemfirst .. qsemlast
    pids: Pids,
    sem: map<(Dbref, int), int>,  // semaphore counters, by object and attribute
    acct: Accounts,
    env: Env,
    hist: History)

  datatype Pids = Pids(
    table: map<int, nat>,         // qpid_htab: PID to entry
    top: int,                     // qpid_top
    nextId: nat)                  // the next serial number

  datatype Env = Env(
    halted: set<Dbref>,
    going: set<Dbref>,
    interp: bool,                 // CF_INTERP
    dequeue: bool)                // CF_DEQUEUE

  /** Queue counters and money, and three accounts no operation reads: what each account
      got from outside the queue, what it lost to the queue for good, and the counter
      increments that no live entry stands for. */
  datatype Accounts = Accounts(
    queue: map<Dbref, int>,
    money: map<Dbref, int>,
    endow: map<Dbref, int>,
    burnt: map<Dbref, int>,
    leaked: map<Dbref, int>)

  /** What happened so far, by serial numbers. No operation reads it. */
  datatype History = History(
    entered: seq<nat>,            // in the order they joined the run queue
    toObject: seq<nat>,           // in the order they joined the object queue
    promoted: seq<nat>,           // in the order they were moved from object to run queue
    threaded: seq<nat>,           // each time one was threaded into the wait queue
    popped: seq<nat>,             // in the order they left the run queue
    ran: seq<nat>,                // those whose command was run
    refunded: seq<nat>,           // those whose deposit was returned
    lost: seq<nat>)               // those cque_do_top dropped without a refund

  function Get<K>(m: map<K, int>, k: K): int {
    if k in m then m[k] else 0
  }

  function Plus<K>(m: map<K, int>, k: K, n: int): map<K, int> {
    m[k := Get(m, k) + n]
  }

  datatype Option<+T> = None | Some(value: T)

  /** The outcomes the queue does not control when it sets up an entry: whether the
      machine surcharge hits, and whether the text to save can be: it must not be empty,
      for which no block is allocated, and its length must be an int. */
  datatype Luck = Luck(surcharge: bool, fits: bool)

  datatype NotifyKey = NFY_NFY | NFY_NFYALL | NFY_DRAIN

  /** How the time argument of a retiming is read: the WAIT_UNTIL switch, or the first
      character of the number. */
  datatype TimeMode = Until | Plain | Increment | Decrement

  /** Operations a running command may perform on the queue, and changes the rest of
      the server makes to what the queue reads. */
  datatype Op =
    | Wait(player: Dbref, cause: Dbref, wait: int, attr: int, now: int, luck: Luck)
    | WaitOn(player: Dbref, cause: Dbref, thing: Dbref, attr: int, wait: int, now: int, luck: Luck)
    | Notify(sem: Dbref, attr: int, key: NotifyKey, count: int)
    | Halt(ptarg: Dbref, otarg: Dbref)
    | HaltPid(pid: int, allowed: bool)
    | Retime(pid: int, mode: TimeMode, val: int, now: int, allowed: bool)
    | SetHalted(obj: Dbref, on: bool)
    | SetGoing(obj: Dbref, on: bool)
    | SetFlags(interp: bool, dequeue: bool)
    | Income(account: Dbref, amount: int)

  /** What the main loop does: a command, the once-a-second pass, or a batch of queued
      commands, the k-th of which performs the operations in scripts[k]. */
  datatype Act =
    | Do(op: Op)
    | Second(now: int)
    | Top(ncmds: nat, scripts: seq<seq<Op>>)
}
