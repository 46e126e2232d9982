/** The kernel as a state machine: one step is one exception or interrupt,
    from the entry of its handler to the loading of a processor state.
 */
module Model {
  import opened Clist
  import opened Forests
  import opened Lists
  import opened Semaphores
  import opened Progress
  import opened Processes
  import Pid = PidGenerator

  /** The scheduler's mode (include/const.h:14-17). */
  datatype Flag = START | RESET | LOADNEXT | LOADCURRENT

  /** How a step ends: a process is loaded, the processor waits for an
      interrupt, or the machine stopped. */
  datatype Mode = Running | Idle | Halted | Panicked

  /** `now` is the latest reading of the clock; the rest is in the source. */
  datatype Times = Times(
    kernelTime: seq<int>, globalTime: seq<int>, startTOD: int, kernelStart: int, pseudoStart: int, now: int)

  /** `repaired` tells the kernel as written from one in which
      terminate_children also takes each process out of the ready queue, by an
      outProcQ before source/syscall.c:164. */
  datatype KState = KState(
    l: Lists, t: Tree, current: int, flag: Flag, pseudoclock: bool, counter: nat, mode: Mode, time: Times, repaired: bool)

  /** The readings of the clock a step can take, in the order it takes them. */
  datatype Clock = Clock(
    entry: int, blockKernel: int, blockGlobal: int, exit: int, reset: int, preempt: int, check: int, tick: int,
    start: int)

  predicate Ordered(c: Clock, now: int) {
    now <= c.entry <= c.blockKernel <= c.blockGlobal <= c.exit <= c.reset <= c.preempt <= c.check <= c.tick <= c.start
  }

  datatype Event =
    | Create(base: int)           // CREATEPROCESS; base: what allocPcb left in pid
    | Terminate(pid: int)         // TERMINATEPROCESS
    | SemOp(addr: int, w: int)    // SEMOP
    | WaitClock                   // WAITCLOCK
    | Plain                       // GETPID, GETCPUTIME and others: nothing here changes
    | Trap                        // an exception for which no handler was specified
    | Timer                       // the interval timer
    | Device(i: int)              // a device that signals its semaphore

  const SCHED_TIME_SLICE := 5000
  const SCHED_PSEUDO_CLOCK := 100000

  function ClockSem(l: Lists): int {
    l.dev + MAX_DEVICES - 1
  }

  // ----- scheduler.c ----------------------------------------------------------

  /** deadlock_detection (source/scheduler.c:52-66). */
  function Deadlock(k: KState): KState {
    if k.l.processCount == 0 then k.(mode := Halted)
    else if k.l.softBlockCount == 0 && k.l.processCount > 0 then k.(mode := Panicked)
    else if k.l.softBlockCount > 0 && k.l.processCount > 0 then k.(mode := Idle)
    else k
  }

  function Add(s: seq<int>, i: int, d: int): seq<int> {
    if 0 <= i < |s| then s[i := s[i] + d] else s
  }

  /** The running process goes to the tail of the ready queue. */
  function Preempted(k: KState, c: Clock): KState {
    if k.current == NULL then k
    else
      k.(l := AfterRequeue(k.l, k.current), current := NULL,
         time := k.time.(globalTime := Add(k.time.globalTime, k.current, c.preempt - k.time.startTOD)))
  }

  function ClockChecked(k: KState, c: Clock): KState {
    if c.check - k.time.pseudoStart > SCHED_PSEUDO_CLOCK - SCHED_TIME_SLICE then
      k.(pseudoclock := true, time := k.time.(pseudoStart := c.tick))
    else k
  }

  function Dispatched(k: KState, c: Clock): KState {
    if k.l.ready == [] then Deadlock(k)
    else
      k.(current := k.l.ready[0], l := AfterDispatch(k.l), mode := Running, time := k.time.(startTOD := c.start))
  }

  /** loadnext (source/scheduler.c:68-98). */
  function LoadNext(k: KState, c: Clock): KState {
    Dispatched(ClockChecked(Preempted(k, c), c), c)
  }

  /** scheduler (source/scheduler.c:15-49). */
  function Schedule(k: KState, c: Clock): KState {
    var k1 := if k.flag == START || k.flag == RESET then k.(pseudoclock := false, time := k.time.(pseudoStart := c.reset)) else k;
    var k2 := if k.flag == LOADCURRENT then k1 else LoadNext(k1, c);
    k2.(time := k2.time.(now := c.start))
  }

  // ----- syscall.c --------------------------------------------------------------

  /** create_process (source/syscall.c:36-63). */
  function CreateProcess(k: KState, base: int): KState
    requires k.counter < Pid.LARGEST
  {
    if k.l.free == [] then k
    else
      var c := k.l.free[0];
      k.(l := AfterSpawn(k.l),
         t := WithChild(k.t, k.current, c, Pid.PidOf(if base < 0 then 0 else base, k.counter)),
         counter := k.counter + 1,
         time := k.time.(kernelTime := Put(k.time.kernelTime, c, 0), globalTime := Put(k.time.globalTime, c, 0)))
  }

  function PidAt(t: Tree, x: int): int {
    if 0 <= x < |t.pid| then t.pid[x] else 0
  }

  /** The first of xs whose pid is `pid`. */
  function FirstMatch(t: Tree, xs: seq<int>, pid: int): int {
    if xs == [] then NULL else if PidAt(t, xs[0]) == pid then xs[0] else FirstMatch(t, xs[1..], pid)
  }

  /** Whom terminate_process kills: the caller, or the first descendant with
      that pid in preorder (source/syscall.c:111-137). */
  function Target(k: KState, pid: int): int {
    if pid == 0 || pid == PidAt(k.t, k.current) then k.current
    else FirstMatch(k.t, Pre(Below(k.t.forest, k.current)), pid)
  }

  /** The dead, in the order in which they die. */
  function Dead(t: Tree, v: int): seq<int> {
    Post(Below(t.forest, v)) + [v]
  }

  ghost function KillLists(l: Lists, t: Tree, v: int, repaired: bool): Lists {
    if repaired then Kills(l, Dead(t, v)) else AfterKill(Reaps(l, Post(Below(t.forest, v))), v)
  }

  /** The subtree of v dies, children first. */
  ghost function KillTree(k: KState, v: int): KState {
    k.(l := KillLists(k.l, k.t, v, k.repaired), t := Felled(k.t, v))
  }

  ghost function KillCurrent(k: KState): KState {
    KillTree(k, k.current).(current := NULL, flag := LOADNEXT)
  }

  /** terminate_process (source/syscall.c:111-137). */
  ghost function TerminateProcess(k: KState, pid: int): KState {
    var v := Target(k, pid);
    if v == k.current then KillCurrent(k)
    else if v == NULL then k.(mode := Panicked)
    else KillTree(k, v)
  }

  /** semaphore_operation (source/syscall.c:171-231). */
  ghost function SemaphoreOperation(k: KState, a: int, w: int, c: Clock): KState {
    if a == 0 then k.(mode := Panicked)
    else if w == 0 then KillCurrent(k)
    else if w < 0 then
      var k1 := k.(l := AfterRequest(k.l, k.current, a, w));
      if Val(k.l.sem, a) + w >= 0 then k1
      else
        k1.(current := NULL, flag := LOADNEXT,
            time := k.time.(kernelTime := Add(k.time.kernelTime, k.current, c.blockKernel - k.time.kernelStart),
                            globalTime := Add(k.time.globalTime, k.current, c.blockGlobal - k.time.startTOD)))
    else k.(l := AfterRelease(k.l, a, w))
  }

  // ----- exceptions.c and interrupts.c --------------------------------------------

  function Entered(k: KState, flag: Flag, c: Clock): KState {
    k.(flag := flag, time := k.time.(kernelStart := c.entry))
  }

  /** A process that is still running pays for the time in the handler; PANIC
      does not return. */
  function Charged(k: KState, c: Clock): KState {
    if k.current == NULL || k.mode == Panicked then k
    else k.(time := k.time.(kernelTime := Add(k.time.kernelTime, k.current, c.exit - k.time.kernelStart)))
  }

  /** The switch of syscall_handler (source/exceptions.c:116-165). */
  ghost function Serve(k: KState, e: Event, c: Clock): KState
    requires e.Create? ==> k.counter < Pid.LARGEST
  {
    match e
    case Create(base) => CreateProcess(k, base)
    case Terminate(pid) => TerminateProcess(k, pid)
    case SemOp(a, w) => SemaphoreOperation(k, a, w, c)
    case WaitClock => SemaphoreOperation(k, ClockSem(k.l), -1, c)
    case _ => k
  }

  /** timer_handler (source/interrupts.c:117-132). */
  ghost function TimerHandler(k: KState): KState {
    if k.pseudoclock then k.(l := Drain(k.l, ClockSem(k.l)), flag := RESET) else k
  }

  /** The semaphore part of dev_handler (source/interrupts.c:103-111). */
  ghost function DevHandler(k: KState, i: int): KState {
    if Val(k.l.sem, k.l.dev + i) < 1 then k.(l := AfterRelease(k.l, k.l.dev + i, 1)) else k
  }

  /** The handler of an event, up to its call of the scheduler. */
  ghost function Handle(k: KState, e: Event, c: Clock): KState
    requires e.Create? ==> k.counter < Pid.LARGEST
  {
    match e
    case Trap => KillCurrent(Entered(k, k.flag, c))
    case Timer => Charged(TimerHandler(Entered(k, LOADNEXT, c)), c)
    case Device(i) => Charged(DevHandler(Entered(k, LOADNEXT, c), i), c)
    case _ => Charged(Serve(Entered(k, LOADCURRENT, c), e, c), c)
  }

  ghost function Step(k: KState, e: Event, c: Clock): KState
    requires e.Create? ==> k.counter < Pid.LARGEST
  {
    var k1 := Handle(k, e, c);
    if k1.mode == Panicked then k1 else Schedule(k1, c)
  }

  // ----- initial.c ------------------------------------------------------------------

  /** MAXPROC, the address of device_sem, the semaphore words as they are
      statically initialised, and which kernel it is. */
  datatype Machine = Machine(n: nat, dev: int, words: map<int, int>, repaired: bool)

  predicate Sound(mc: Machine) {
    mc.n >= 1 && mc.dev > 0
  }

  /** The words, once n of them from dev on are set to 0. */
  function Zeroed(words: map<int, int>, dev: int, n: nat): map<int, int> {
    if n == 0 then words else Zeroed(words, dev, n - 1)[dev + n - 1 := 0]
  }

  /** What initPcbs, initASL and main make of the n PCBs before the first process
      (source/initial.c:57-68). */
  function InitialLists(mc: Machine): Lists {
    Lists(mc.dev, seq(mc.n, i => i), [], map[], seq(mc.n, i => Free), seq(mc.n, i => 0),
      Zeroed(mc.words, mc.dev, MAX_DEVICES), 0, 0)
  }

  function NoTree(n: nat): Tree {
    Tree(seq(n, i => []), seq(n, i => NULL), seq(n, i => 0), Nil)
  }

  function PoweredOn(mc: Machine): KState {
    KState(InitialLists(mc), NoTree(mc.n), NULL, START, false, 0, Idle,
      Times(seq(mc.n, i => 0), seq(mc.n, i => 0), 0, 0, 0, 0), mc.repaired)
  }

  /** The first process (source/initial.c:71-107). */
  function FirstProcess(k: KState, base: int): KState {
    if k.l.free == [] then k.(mode := Panicked)
    else
      var p := k.l.free[0];
      k.(l := AfterSpawn(k.l),
         t := k.t.(pid := Put(k.t.pid, p, Pid.PidOf(if base < 0 then 0 else base, 0)), forest := Cons(p, Nil, Nil)),
         counter := 1, flag := START, pseudoclock := false,
         time := k.time.(kernelTime := Put(k.time.kernelTime, p, 0), globalTime := Put(k.time.globalTime, p, 0), kernelStart := 0))
  }

  /** main; base: what allocPcb left in pid. */
  function Booted(mc: Machine, base: int, c: Clock): KState {
    Schedule(FirstProcess(PoweredOn(mc), base), c)
  }

  // ----- when a step can happen ----------------------------------------------------

  /** Whom the event kills, with all its descendants; NULL if nobody. */
  function Victim(k: KState, e: Event): int {
    match e
    case Terminate(pid) => Target(k, pid)
    case SemOp(a, w) => if a != 0 && w == 0 then k.current else NULL
    case Trap => k.current
    case _ => NULL
  }

  /** No proper descendant of v is in the ready queue: see ReadyBrokenIff for
      what happens to the links otherwise. */
  ghost predicate NoReadyBelow(k: KState, v: int) {
    forall p :: p in Nodes(Below(k.t.forest, v)) ==> p !in k.l.ready
  }

  /** The kill of v does no damage: see KillKeepsIff. */
  ghost predicate KillOk(k: KState, v: int) {
    k.repaired || NoReadyBelow(k, v)
  }

  ghost predicate Possible(k: KState, e: Event, c: Clock) {
    && Ordered(c, k.time.now)
    && (k.mode == Running || (k.mode == Idle && (e.Timer? || e.Device?)))
    && (Victim(k, e) != NULL ==> KillOk(k, Victim(k, e)))
    && match e
       case Create(base) => k.counter < Pid.LARGEST
       case Device(i) => 0 <= i < MAX_DEVICES - 1 && (Val(k.l.sem, k.l.dev + i) < 1 ==> QueueAt(k.l.queue, k.l.dev + i) != [])
       case _ => true
  }

  // ----- the invariant ----------------------------------------------------------------

  /** Exactly the current process is in no list. */
  ghost predicate CurrentOk(l: Lists, current: int) {
    && (current != NULL ==> Is(l, current, Off))
    && forall p {:trigger Is(l, p, Off)} :: Is(l, p, Off) ==> p == current
  }

  /** Between any two statements of a handler. */
  ghost predicate KInv(k: KState, first: int) {
    && Inv(k.l) && TreeInv(k.t, |k.l.status|, Live(k.l), first) && CurrentOk(k.l, k.current) && k.l.dev > 0
  }

  /** At the end of a step. */
  ghost predicate Settled(k: KState) {
    && (k.mode == Running <==> k.current != NULL)
    && (k.mode == Idle ==> k.l.ready == [] && k.l.softBlockCount > 0)
    && (k.mode == Halted <==> k.l.processCount == 0)
  }
}
