/** The worker pool as a step system: any number of submitters, the workers, the sweeper, the
    submitters' timers and one closer share a mutex and one condition variable. Each critical
    section is one atomic step, so the mutex is free in every state. */
module QueueMachine {
  import opened Sequences
  import opened QueueSections

  /** Goroutines. A submitter is named by the task it submits. */
  datatype Gid = Sub(t: Task) | Wrk(i: nat) | Swp

  datatype Pc =
    | Collect                // Submit: about to sweep the queue
    | Gate                   // Submit: about to lock for the main section
    | Retry                  // Submit: about to lock for a pass of the waiting loop
    | Expiring(left: int)    // Submit: about to answer its own task as expired
    | Shedding               // Submit: about to answer its own task as turned away
    | Pop                    // worker: about to lock for a pass of pop
    | Serve                  // worker: holds a task
    | Leaving                // worker: pop said stop
    | Tick                   // sweeper: in its select
    | Asleep                 // in cond.Wait
    | Gone

  datatype Timer = NoTimer | Armed(at: int) | Fired

  /** A goroutine first answers every task in `dead`, then continues at `pc`. */
  datatype G = G(pc: Pc, dead: seq<Task>, hand: seq<Task>, timer: Timer)

  datatype Shed = NotShed | QueueLimit | DeadlineExceeded

  datatype Call = Call(task: Task, budget: int, shed: Shed)

  datatype Closer = Open | Stopping | Waiting | Returned

  datatype Place = Queue | Dead(g: Gid) | Hand(h: Gid) | Handled

  /** `calls`, `accepted`, `taken` and `place` are history: the handler calls, the tasks in
      the order they entered the queue, the tasks workers took off it, and where each task is. */
  datatype State = State(
    clock: int, q: seq<Task>, closed: bool, closer: Closer, gs: map<Gid, G>,
    acceptedCount: nat, shedCount: nat, expiredCount: nat,
    calls: seq<Call>, accepted: seq<Task>, taken: seq<Task>, place: map<Task, Place>)

  datatype Event =
    | Arrive(t: Task, now: int)
    | Sweep(g: Gid, now: int)
    | Answer(g: Gid)
    | Enter(t: Task, now1: int, now2: int, woken: Gid)
    | Pass(t: Task, now: int, woken: Gid)
    | Fire(t: Task, now: int)
    | AnswerOwn(t: Task)
    | TakeNext(i: nat, now: int)
    | Handle(i: nat, now: int)
    | Leave(i: nat)
    | StopSweeper
    | CloseStop
    | CloseLock
    | CloseReturn

  // ------------------------------------------------------------------ waking

  function Woken(g: Gid, me: G): G {
    if me.pc == Asleep then me.(pc := if g.Sub? then Retry else Pop) else me
  }

  function WakeAll(gs: map<Gid, G>): map<Gid, G> {
    map g | g in gs :: Woken(g, gs[g])
  }

  function WakeOne(gs: map<Gid, G>, g: Gid): map<Gid, G> {
    if g in gs then gs[g := Woken(g, gs[g])] else gs
  }

  datatype Wake = Nobody | One(g: Gid) | All

  /** `woken` is the goroutine a Signal picks. */
  function WakeBy(cond: CondCall, woken: Gid): Wake {
    match cond
    case Silent => Nobody
    case Signal => One(woken)
    case Broadcast => All
  }

  function WakeUp(gs: map<Gid, G>, w: Wake): map<Gid, G> {
    match w
    case Nobody => gs
    case One(g) => WakeOne(gs, g)
    case All => WakeAll(gs)
  }

  ghost predicate SomeAsleep(gs: map<Gid, G>) {
    exists g :: g in gs && gs[g].pc == Asleep
  }

  /** `Signal` may wake any sleeper, and wakes one if there is one. */
  ghost predicate MayWake(gs: map<Gid, G>, g: Gid) {
    SomeAsleep(gs) ==> g in gs && gs[g].pc == Asleep
  }

  // ------------------------------------------------------------------ steps

  /** What one step of goroutine `g` does: where it ends up, the new queue, who is woken, and
      which tasks moved (into the system, off the queue as dead, into the queue, off the queue
      into its hand, to the handler). */
  datatype Act = Act(
    g: Gid, me: G, q: seq<Task>, wake: Wake, clock: int,
    arrived: seq<Task>, swept: seq<Task>, entered: seq<Task>, head: seq<Task>, calls: seq<Call>)

  function Local(s: State, g: Gid, me: G, clock: int): Act {
    Act(g, me, s.q, Nobody, clock, [], [], [], [], [])
  }

  function Put(m: map<Task, Place>, ts: seq<Task>, p: Place): map<Task, Place> {
    m + map t | t in ts :: p
  }

  function Perform(s: State, a: Act): State {
    s.(clock := a.clock, q := a.q, gs := WakeUp(s.gs, a.wake)[a.g := a.me],
       acceptedCount := s.acceptedCount + |a.entered|,
       shedCount := s.shedCount + Count(a.calls, QueueLimit),
       expiredCount := s.expiredCount + Count(a.calls, DeadlineExceeded),
       calls := s.calls + a.calls, accepted := s.accepted + a.entered, taken := s.taken + a.head,
       place := Put(Put(Put(Put(s.place, a.swept, Dead(a.g)), a.entered, Queue), a.head + a.arrived, Hand(a.g)),
                    Tasks(a.calls), Handled))
  }

  function Tasks(calls: seq<Call>): seq<Task> {
    seq(|calls|, i requires 0 <= i < |calls| => calls[i].task)
  }

  function Count(calls: seq<Call>, kind: Shed): nat {
    if calls == [] then 0
    else Count(calls[..|calls| - 1], kind) + if calls[|calls| - 1].shed == kind then 1 else 0
  }

  ghost predicate At(s: State, g: Gid, pc: Pc) {
    g in s.gs && s.gs[g].pc == pc && s.gs[g].dead == []
  }

  ghost predicate Init(c: Config, s: State) {
    && s == State(s.clock, [], false, Open, s.gs, 0, 0, 0, [], [], [], map[])
    && (forall g :: g in s.gs <==> g == Swp || (g.Wrk? && g.i < c.workers))
    && (forall g :: g in s.gs ==> s.gs[g] == G(if g == Swp then Tick else Pop, [], [], NoTimer))
  }

  ghost predicate Enabled(c: Config, s: State, e: Event) {
    match e
    case Arrive(t, now) => s.clock <= t.enqueued <= now && Sub(t) !in s.gs
    case Sweep(g, now) => s.clock <= now && ((g.Sub? && At(s, g, Collect)) || (g == Swp && At(s, g, Tick)))
    case Answer(g) => g in s.gs && s.gs[g].dead != []
    case Enter(t, now1, now2, woken) => s.clock <= now1 <= now2 && At(s, Sub(t), Gate) && MayWake(s.gs, woken)
    case Pass(t, now, woken) => s.clock <= now && At(s, Sub(t), Retry) && MayWake(s.gs, woken)
    case Fire(t, now) =>
      s.clock <= now && Sub(t) in s.gs && s.gs[Sub(t)].timer.Armed? && s.gs[Sub(t)].timer.at <= now
    case AnswerOwn(t) => Sub(t) in s.gs && (s.gs[Sub(t)].pc.Expiring? || s.gs[Sub(t)].pc.Shedding?)
    case TakeNext(i, now) => s.clock <= now && At(s, Wrk(i), Pop)
    case Handle(i, now) => s.clock <= now && At(s, Wrk(i), Serve) && |s.gs[Wrk(i)].hand| == 1
    case Leave(i) => At(s, Wrk(i), Leaving)
    case StopSweeper => At(s, Swp, Tick) && s.closer != Open
    case CloseStop => s.closer == Open
    case CloseLock => s.closer == Stopping
    case CloseReturn => s.closer == Waiting && AllGone(s)
  }

  /** `wg.Wait`: the workers and the sweeper have exited. */
  ghost predicate AllGone(s: State) {
    forall g :: g in s.gs && !g.Sub? ==> s.gs[g].pc == Gone
  }

  /** How a submitter's critical section that ended with `out` changes the pool. */
  function SubmitAct(s: State, t: Task, me: G, out: SubmitOut, timer: Timer, woken: Gid, now: int): Act {
    var g := Sub(t);
    match out.step
    case Entered => Local(s, g, me.(pc := Gone, hand := []), now).(q := out.q, wake := WakeBy(out.cond, woken), entered := [t])
    case Closed => Local(s, g, me.(pc := Expiring(0)), now)
    case TimeUp => Local(s, g, me.(pc := Expiring(0)), now)
    case NoTime(left) => Local(s, g, me.(pc := Expiring(left)), now)
    case TurnedAway => Local(s, g, me.(pc := Shedding), now)
    case Waits => Local(s, g, me.(pc := Asleep, timer := timer), now)
    case Retries =>
      Local(s, g, me.(pc := Retry, dead := out.dead, timer := timer), now).(q := out.q, wake := WakeBy(out.cond, woken), swept := out.dead)
  }

  /** The section that decides between entering, waiting and being turned away. */
  function EnterAct(c: Config, s: State, t: Task, now1: int, now2: int, woken: Gid): Act
    requires Sub(t) in s.gs
  {
    SubmitAct(s, t, s.gs[Sub(t)], GateSection(c, s.q, s.closed, t, now1, now2), Armed(now1 + LeftAt(c, t, now1)), woken, now2)
  }

  /** One pass of the waiting loop. */
  function PassAct(c: Config, s: State, t: Task, now: int, woken: Gid): Act
    requires Sub(t) in s.gs
  {
    var me := s.gs[Sub(t)];
    SubmitAct(s, t, me, WaitSection(c, s.q, s.closed, me.timer == Fired, t, now), me.timer, woken, now)
  }

  function PopAct(s: State, i: nat, out: PopOut, now: int): Act {
    var pc := match out.step case Took(_) => Serve case Exit => Leaving case Again => Pop case Sleep => Asleep;
    var head := if out.step.Took? then [out.step.head] else [];
    Local(s, Wrk(i), G(pc, out.dead, head, NoTimer), now).(
      q := out.q, wake := if out.broadcast then All else Nobody, swept := out.dead, head := head)
  }

  function SweepAct(c: Config, s: State, g: Gid, me: G, now: int): Act {
    var dead := Swept(c, s.q, now);
    Local(s, g, me.(dead := dead, pc := if g == Swp then Tick else Gate), now).(
      q := Kept(c, s.q, now), wake := if dead != [] then All else Nobody, swept := dead)
  }

  ghost function ActOf(c: Config, s: State, e: Event): Act
    requires Enabled(c, s, e) && !e.CloseStop? && !e.CloseLock? && !e.CloseReturn?
  {
    match e
    case Arrive(t, now) =>
      var pc := if Spent(c, t, now) then Expiring(LeftAt(c, t, now)) else Collect;
      Local(s, Sub(t), G(pc, [], [t], NoTimer), now).(arrived := [t])
    case Sweep(g, now) => SweepAct(c, s, g, s.gs[g], now)
    case Answer(g) =>
      var me := s.gs[g];
      Local(s, g, me.(dead := me.dead[1..]), s.clock).(calls := [Call(me.dead[0], 0, DeadlineExceeded)])
    case Enter(t, now1, now2, woken) => EnterAct(c, s, t, now1, now2, woken)
    case Pass(t, now, woken) => PassAct(c, s, t, now, woken)
    case Fire(t, now) =>
      Local(s, Sub(t), Woken(Sub(t), s.gs[Sub(t)]).(timer := Fired), now).(wake := All)
    case AnswerOwn(t) =>
      var me := s.gs[Sub(t)];
      Local(s, Sub(t), me.(pc := Gone, hand := []), s.clock).(
        calls := [if me.pc.Expiring? then Call(t, me.pc.left, DeadlineExceeded) else Call(t, 0, QueueLimit)])
    case TakeNext(i, now) => PopAct(s, i, PopSection(c, s.q, s.closed, now), now)
    case Handle(i, now) =>
      var t := s.gs[Wrk(i)].hand[0];
      var left := LeftAt(c, t, now);
      Local(s, Wrk(i), G(Pop, [], [], NoTimer), now).(
        calls := [Call(t, left, if left < c.minBudget then DeadlineExceeded else NotShed)])
    case Leave(i) => Local(s, Wrk(i), s.gs[Wrk(i)].(pc := Gone), s.clock)
    case StopSweeper => Local(s, Swp, s.gs[Swp].(pc := Gone), s.clock)
  }

  ghost function Next(c: Config, s: State, e: Event): State
    requires Enabled(c, s, e)
  {
    match e
    case CloseStop => s.(closer := Stopping)
    case CloseLock =>
      var out := CloseSection(s.q);
      s.(closer := Waiting, closed := out.closed, q := out.q, gs := WakeUp(s.gs, if out.broadcast then All else Nobody))
    case CloseReturn => s.(closer := Returned)
    case _ => Perform(s, ActOf(c, s, e))
  }

  /** A run: the states it passes through, starting from an initial one. */
  ghost predicate IsRun(c: Config, tr: seq<State>, es: seq<Event>) {
    && |tr| == |es| + 1
    && Init(c, tr[0])
    && (forall i :: 0 <= i < |es| ==> Enabled(c, tr[i], es[i]) && tr[i + 1] == Next(c, tr[i], es[i]))
  }
}
