/** The inductive invariants of the worker pool. */
module QueueInvariants {
  import opened Sequences
  import opened QueueSections
  import opened QueueMachine

  /** What a goroutine may hold where it stands. */
  ghost predicate ShapeOf(g: Gid, me: G) {
    && (me.pc == Asleep || me.pc == Gone || me.pc == Collect || me.pc.Expiring? || me.pc == Shedding ==> me.dead == [])
    && match g {
      case Sub(t) =>
        && (me.pc == Collect || me.pc == Gate || me.pc == Retry || me.pc.Expiring? || me.pc == Shedding
            || me.pc == Asleep || me.pc == Gone)
        && me.hand == (if me.pc == Gone then [] else [t])
        && (me.pc == Asleep || me.pc == Retry ==> me.timer != NoTimer)
      case Wrk(i) =>
        && (me.pc == Pop || me.pc == Serve || me.pc == Leaving || me.pc == Asleep || me.pc == Gone)
        && |me.hand| == (if me.pc == Serve then 1 else 0)
        && me.timer == NoTimer
      case Swp => (me.pc == Tick || me.pc == Gone) && me.hand == [] && me.timer == NoTimer
    }
  }

  /** Which goroutines exist. */
  ghost predicate Cast(c: Config, gs: map<Gid, G>) {
    && Swp in gs
    && (forall i: nat :: Wrk(i) in gs <==> i < c.workers)
    && (forall g :: g in gs ==> ShapeOf(g, gs[g]))
  }

  ghost predicate Stopped(me: G) {
    me.pc == Leaving || me.pc == Gone
  }

  /** A worker or the sweeper stops only after Close, and a worker only from an empty queue. */
  ghost predicate Stops(s: State) {
    && (s.closed <==> s.closer == Waiting || s.closer == Returned)
    && (s.closer == Open && Swp in s.gs ==> s.gs[Swp].pc != Gone)
    && (forall g :: g in s.gs && g.Wrk? && Stopped(s.gs[g]) ==> s.closed && s.q == [])
    && (s.closer == Returned ==> AllGone(s))
  }

  ghost function Ready(gs: map<Gid, G>): set<Gid> {
    set g | g in gs && g.Wrk? && gs[g].pc == Pop
  }

  /** Nobody sleeps through the event it waits for. While any worker sleeps, at least as many
      workers are on their way to the queue as there are tasks in it. */
  ghost predicate Wakeful(c: Config, s: State) {
    && |s.q| <= c.depth
    && (forall g :: g in s.gs && g.Sub? && s.gs[g].pc == Asleep ==> |s.q| == c.depth && s.gs[g].timer.Armed?)
    && (s.closed ==> !SomeAsleep(s.gs))
    && ((exists g :: g in s.gs && g.Wrk? && s.gs[g].pc == Asleep) ==> |Ready(s.gs)| >= |s.q|)
  }

  /** Task `t` is at place `p`. */
  ghost predicate Is(s: State, t: Task, p: Place) {
    match p
    case Queue => t in s.q
    case Dead(g) => g in s.gs && t in s.gs[g].dead
    case Hand(g) => g in s.gs && t in s.gs[g].hand
    case Handled => t in Tasks(s.calls)
  }

  /** Every submitted task is at exactly one place, once. */
  ghost predicate Placed(s: State) {
    && (forall t, p :: Is(s, t, p) <==> t in s.place && s.place[t] == p)
    && (forall t :: t in s.place <==> Sub(t) in s.gs)
    && Distinct(s.q) && Distinct(Tasks(s.calls))
    && (forall g :: g in s.gs ==> Distinct(s.gs[g].dead))
  }

  /** Acceptance order. */
  ghost predicate InOrder(s: State) {
    Distinct(s.accepted) && Subsequence(s.taken + s.q, s.accepted)
  }

  /** The counters. */
  ghost predicate Tallied(s: State) {
    && s.acceptedCount == |s.accepted|
    && s.shedCount == Count(s.calls, QueueLimit)
    && s.expiredCount == Count(s.calls, DeadlineExceeded)
  }

  /** The tasks accepted are those that are queued, dead, with a worker, or handled after. */
  ghost predicate Admitted(s: State) {
    && (forall t :: t in s.accepted ==> t in s.place && (s.place[t].Hand? ==> s.place[t].h.Wrk?))
    && (forall t :: t in s.place && t !in s.accepted ==> s.place[t] == Handled || s.place[t] == Hand(Sub(t)))
  }

  ghost predicate Ordered(s: State) {
    InOrder(s) && Tallied(s) && Admitted(s)
  }

  ghost predicate OutOfTime(c: Config, s: State, t: Task) {
    s.closed || Spent(c, t, s.clock) || LeftAt(c, t, s.clock) <= 0
  }

  ghost predicate Fair(c: Config, s: State, call: Call) {
    match call.shed
    case NotShed => call.budget >= c.minBudget && call.budget >= LeftAt(c, call.task, s.clock)
    case QueueLimit => c.full == Drop
    case DeadlineExceeded => OutOfTime(c, s, call.task)
  }

  ghost predicate TimerOk(c: Config, s: State, t: Task, timer: Timer) {
    match timer
    case NoTimer => true
    case Armed(at) => LeftAt(c, t, at) == 0
    case Fired => LeftAt(c, t, s.clock) <= 0
  }

  /** What is on a dead list is out of time. */
  ghost predicate DeadSpent(c: Config, s: State) {
    forall g, t :: g in s.gs && t in s.gs[g].dead ==> Spent(c, t, s.clock)
  }

  ghost predicate CallsFair(c: Config, s: State) {
    forall i :: 0 <= i < |s.calls| ==> Fair(c, s, s.calls[i])
  }

  /** A submitter's timer and the answer it is about to give are justified. */
  ghost predicate SubmitterTimely(c: Config, s: State, t: Task, me: G) {
    && TimerOk(c, s, t, me.timer)
    && (me.pc.Expiring? ==> OutOfTime(c, s, t))
    && (me.pc == Shedding ==> c.full == Drop)
  }

  ghost predicate SubmittersTimely(c: Config, s: State) {
    forall t :: Sub(t) in s.gs ==> SubmitterTimely(c, s, t, s.gs[Sub(t)])
  }

  /** Deadlines are honoured. */
  ghost predicate Timely(c: Config, s: State) {
    DeadSpent(c, s) && CallsFair(c, s) && SubmittersTimely(c, s)
  }

  ghost predicate Inv(c: Config, s: State) {
    Cast(c, s.gs) && Stops(s) && Wakeful(c, s) && Placed(s) && Ordered(s) && Timely(c, s)
  }

  // ------------------------------------------------------------------ lawful steps

  ghost function Before(s: State, g: Gid): G {
    if g in s.gs then s.gs[g] else G(Gone, [], [], NoTimer)
  }

  /** The local laws a step obeys; each invariant needs one of them. */
  ghost predicate LawfulCast(c: Config, s: State, a: Act) {
    && (a.g in s.gs || a.g.Sub?)
    && ShapeOf(a.g, a.me)
  }

  ghost predicate LawfulStop(s: State, a: Act) {
    && (s.q == [] && s.closed ==> a.q == [])
    && (s.closer == Returned ==> a.g.Sub? || a.me.pc == Gone)
    && (a.g.Wrk? && Stopped(a.me) ==> s.closed && a.q == [])
    && (a.g == Swp && a.me.pc == Gone ==> s.closer != Open)
    && (s.closed ==> a.entered == [])
  }

  ghost predicate LawfulWake(c: Config, s: State, a: Act) {
    var was := Before(s, a.g);
    && |a.q| <= c.depth
    && (was.pc == Asleep ==> a.wake == All)
    && (a.wake == All
        || (a.q == s.q && a.wake == Nobody)
        || (|a.q| == |s.q| + 1 && |s.q| < c.depth && a.wake.One? && MayWake(s.gs, a.wake.g) && a.g.Sub?))
    && (a.g.Wrk? && was.pc == Pop && a.me.pc != Pop ==> a.wake == All || a.q == [])
    && (a.me.pc == Asleep ==> a.wake == Nobody && !s.closed && if a.g.Sub? then |a.q| == c.depth && a.me.timer.Armed? else a.q == [])
  }

  ghost predicate LawfulMove(s: State, a: Act) {
    var was := Before(s, a.g);
    var called := Tasks(a.calls);
    && (forall t :: t in a.q <==> (t in s.q && t !in a.swept && t !in a.head) || t in a.entered)
    && (forall t :: t in a.me.dead <==> (t in was.dead && t !in called) || t in a.swept)
    && (forall t :: t in a.me.hand <==> (t in was.hand && t !in called && t !in a.entered) || t in a.head || t in a.arrived)
    && (forall t :: t in a.swept || t in a.head ==> t in s.q)
    && (forall t :: t in a.swept ==> t !in a.head)
    && (forall t :: t in a.entered ==> t in was.hand && a.g == Sub(t))
    && (forall t :: t in called ==> t in was.dead || t in was.hand)
    && (a.arrived == if a.g in s.gs then [] else if a.g.Sub? then [a.g.t] else [])
    && |a.calls| <= 1 && |a.entered| <= 1
    && (a.calls != [] ==> a.entered == [])
    && (a.head != [] ==> a.g.Wrk?)
    && Distinct(a.q) && Distinct(a.me.dead)
    && Subsequence(a.head + a.q, s.q + a.entered)
  }

  ghost predicate LawfulTime(c: Config, s: State, a: Act) {
    var s' := s.(clock := a.clock);
    && s.clock <= a.clock
    && (forall t :: t in a.swept ==> Spent(c, t, a.clock))
    && (forall i :: 0 <= i < |a.calls| ==> Fair(c, s', a.calls[i]))
    && (a.g.Sub? ==> SubmitterTimely(c, s', a.g.t, a.me))
  }

  // ------------------------------------------------------------------ lawful steps keep the invariants

  /** What a step leaves of the other goroutines: they are as they were, or woken. */
  ghost predicate GsEffect(gs: map<Gid, G>, a: Act, gs': map<Gid, G>) {
    && (forall g :: g in gs' <==> g in gs || g == a.g)
    && gs'[a.g] == a.me
    && (forall g :: g in gs && g != a.g ==> gs'[g] == gs[g] || (a.wake != Nobody && gs'[g] == Woken(g, gs[g])))
    && (a.wake == All ==> forall g :: g in gs && g != a.g ==> gs'[g].pc != Asleep)
    && (a.wake.One? && a.wake.g in gs && a.wake.g != a.g ==> gs'[a.wake.g].pc != Asleep)
  }

  lemma PerformGs(s: State, a: Act)
    ensures GsEffect(s.gs, a, Perform(s, a).gs)
  {
    WakeUpIs(s.gs, a.wake);
    UpdatedGs(s.gs, a, WakeUp(s.gs, a.wake));
    assert Perform(s, a).gs == WakeUp(s.gs, a.wake)[a.g := a.me];
  }

  /** What waking leaves of everyone. */
  ghost predicate WakeEffect(gs: map<Gid, G>, w: Wake, gs': map<Gid, G>) {
    && gs'.Keys == gs.Keys
    && (forall g :: g in gs ==> gs'[g] == gs[g] || (w != Nobody && gs'[g] == Woken(g, gs[g])))
    && (w == All ==> forall g :: g in gs ==> gs'[g].pc != Asleep)
    && (w.One? && w.g in gs ==> gs'[w.g].pc != Asleep)
  }

  lemma WakeUpIs(gs: map<Gid, G>, w: Wake)
    ensures WakeEffect(gs, w, WakeUp(gs, w))
  {
  }

  lemma UpdatedGs(gs: map<Gid, G>, a: Act, woken: map<Gid, G>)
    requires WakeEffect(gs, a.wake, woken)
    ensures GsEffect(gs, a, woken[a.g := a.me])
  {
  }

  lemma CastKept(c: Config, gs: map<Gid, G>, a: Act, gs': map<Gid, G>)
    requires Cast(c, gs) && (a.g in gs || a.g.Sub?) && ShapeOf(a.g, a.me) && GsEffect(gs, a, gs')
    ensures Cast(c, gs')
  {
  }

  lemma StopsKept(s: State, a: Act, s': State)
    requires Stops(s) && LawfulStop(s, a) && GsEffect(s.gs, a, s'.gs)
    requires s'.closed == s.closed && s'.closer == s.closer && s'.q == a.q
    ensures Stops(s')
  {
  }

  lemma WakefulKept(c: Config, s: State, a: Act, s': State)
    requires Cast(c, s.gs) && Wakeful(c, s) && LawfulWake(c, s, a) && GsEffect(s.gs, a, s'.gs)
    requires s'.closed == s.closed && s'.q == a.q
    ensures Wakeful(c, s')
  {
    SleepersKept(c, s, a, s');
    if a.wake != All && exists g :: g in s'.gs && g.Wrk? && s'.gs[g].pc == Asleep {
      ReadyKept(c, s, a, s');
    }
  }

  lemma SleepersKept(c: Config, s: State, a: Act, s': State)
    requires Cast(c, s.gs) && Wakeful(c, s) && LawfulWake(c, s, a) && GsEffect(s.gs, a, s'.gs)
    requires s'.closed == s.closed && s'.q == a.q
    ensures forall g :: g in s'.gs && g.Sub? && s'.gs[g].pc == Asleep ==> |s'.q| == c.depth && s'.gs[g].timer.Armed?
    ensures s'.closed ==> !SomeAsleep(s'.gs)
  {
    forall g | g in s'.gs && g.Sub? && s'.gs[g].pc == Asleep
      ensures |s'.q| == c.depth && s'.gs[g].timer.Armed?
    {
      if g != a.g {
        assert g in s.gs && s.gs[g].pc == Asleep;
      }
    }
  }

  lemma ReadyKept(c: Config, s: State, a: Act, s': State)
    requires Cast(c, s.gs) && Wakeful(c, s) && LawfulWake(c, s, a) && GsEffect(s.gs, a, s'.gs)
    requires s'.q == a.q && a.wake != All
    requires exists g :: g in s'.gs && g.Wrk? && s'.gs[g].pc == Asleep
    ensures |Ready(s'.gs)| >= |a.q|
  {
    if a.q != [] {
      if a.wake == Nobody {
        ReadyStays(c, s, a, s');
      } else {
        ReadyGains(c, s, a, s');
      }
    }
  }

  lemma ReadyStays(c: Config, s: State, a: Act, s': State)
    requires LawfulWake(c, s, a) && GsEffect(s.gs, a, s'.gs) && a.wake == Nobody && a.q != []
    ensures |Ready(s'.gs)| >= |Ready(s.gs)|
  {
    SubsetCard(Ready(s.gs), Ready(s'.gs));
  }

  lemma ReadyGains(c: Config, s: State, a: Act, s': State)
    requires Cast(c, s.gs) && Wakeful(c, s) && LawfulWake(c, s, a) && GsEffect(s.gs, a, s'.gs) && a.wake.One?
    requires exists g :: g in s'.gs && g.Wrk? && s'.gs[g].pc == Asleep
    ensures |Ready(s'.gs)| >= |a.q|
  {
    var g := StillAsleep(s, a, s');
    ReadyEnough(c, s, g);
    WokenIsWorker(c, s, a);
    OneMoreReady(s, a, s');
  }

  lemma OneMoreReady(s: State, a: Act, s': State)
    requires a.g.Sub? && GsEffect(s.gs, a, s'.gs) && a.wake.One?
    requires a.wake.g in s.gs && a.wake.g.Wrk? && s.gs[a.wake.g].pc == Asleep
    ensures |Ready(s'.gs)| >= |Ready(s.gs)| + 1
  {
    ReadyStaysOne(s, a, s');
    SubsetCard(Ready(s.gs) + {a.wake.g}, Ready(s'.gs));
  }

  lemma ReadyEnough(c: Config, s: State, g: Gid)
    requires Wakeful(c, s) && g in s.gs && g.Wrk? && s.gs[g].pc == Asleep
    ensures |Ready(s.gs)| >= |s.q| && SomeAsleep(s.gs)
  {
  }

  lemma StillAsleep(s: State, a: Act, s': State) returns (g: Gid)
    requires a.g.Sub? && GsEffect(s.gs, a, s'.gs)
    requires exists g :: g in s'.gs && g.Wrk? && s'.gs[g].pc == Asleep
    ensures g in s.gs && g.Wrk? && s.gs[g].pc == Asleep
  {
    g :| g in s'.gs && g.Wrk? && s'.gs[g].pc == Asleep;
  }

  lemma ReadyStaysOne(s: State, a: Act, s': State)
    requires a.g.Sub? && GsEffect(s.gs, a, s'.gs) && a.wake.One?
    requires a.wake.g in s.gs && a.wake.g.Wrk? && s.gs[a.wake.g].pc == Asleep
    ensures Ready(s.gs) + {a.wake.g} <= Ready(s'.gs) && a.wake.g !in Ready(s.gs)
  {
    forall w | w in Ready(s.gs)
      ensures w in Ready(s'.gs)
    {
    }
  }

  /** Who an enqueue's signal wakes. */
  lemma WokenIsWorker(c: Config, s: State, a: Act)
    requires Cast(c, s.gs) && Wakeful(c, s) && SomeAsleep(s.gs) && a.wake.One? && MayWake(s.gs, a.wake.g) && |s.q| < c.depth
    ensures a.wake.g in s.gs && s.gs[a.wake.g].pc == Asleep && a.wake.g.Wrk?
  {
    assert ShapeOf(a.wake.g, s.gs[a.wake.g]);
  }

  lemma SubsetCard<T>(a: set<T>, b: set<T>)
    requires a <= b
    ensures |a| <= |b|
  {
    assert b == a + (b - a);
  }

  /** Where a step leaves each task. */
  ghost function PlaceAfter(a: Act, t: Task, was: Place): Place {
    if t in Tasks(a.calls) then Handled
    else if t in a.head || t in a.arrived then Hand(a.g)
    else if t in a.entered then Queue
    else if t in a.swept then Dead(a.g)
    else was
  }

  ghost predicate PlaceEffect(s: State, a: Act, s': State) {
    && (forall t :: t in s'.place <==> t in s.place || t in Tasks(a.calls) || t in a.head || t in a.arrived
                                       || t in a.entered || t in a.swept)
    && (forall t :: t in s'.place ==> s'.place[t] == PlaceAfter(a, t, if t in s.place then s.place[t] else Handled))
  }

  lemma PutIs(m: map<Task, Place>, ts: seq<Task>, p: Place)
    ensures forall t :: t in Put(m, ts, p) <==> t in m || t in ts
    ensures forall t :: t in Put(m, ts, p) ==> Put(m, ts, p)[t] == if t in ts then p else m[t]
  {
  }

  lemma PerformPlace(s: State, a: Act)
    ensures PlaceEffect(s, a, Perform(s, a))
  {
    var swept := Put(s.place, a.swept, Dead(a.g));
    var entered := Put(swept, a.entered, Queue);
    var held := Put(entered, a.head + a.arrived, Hand(a.g));
    PutIs(s.place, a.swept, Dead(a.g));
    PutIs(swept, a.entered, Queue);
    PutIs(entered, a.head + a.arrived, Hand(a.g));
    PutIs(held, Tasks(a.calls), Handled);
    var done := Put(held, Tasks(a.calls), Handled);
    assert Perform(s, a).place == done;
    forall t
      ensures t in done <==> t in s.place || t in Tasks(a.calls) || t in a.head || t in a.arrived || t in a.entered || t in a.swept
      ensures t in done ==> done[t] == PlaceAfter(a, t, if t in s.place then s.place[t] else Handled)
    {
      assert t in a.head + a.arrived <==> t in a.head || t in a.arrived;
    }
  }

  lemma TasksConcat(a: seq<Call>, b: seq<Call>)
    ensures Tasks(a + b) == Tasks(a) + Tasks(b)
  {
  }

  lemma PlacedKept(c: Config, s: State, a: Act, s': State)
    requires Cast(c, s.gs) && Placed(s) && LawfulMove(s, a) && (a.g in s.gs || a.g.Sub?)
    requires GsEffect(s.gs, a, s'.gs) && PlaceEffect(s, a, s')
    requires s'.q == a.q && s'.calls == s.calls + a.calls
    ensures Placed(s')
  {
    TasksConcat(s.calls, a.calls);
    forall t, p
      ensures Is(s', t, p) <==> t in s'.place && s'.place[t] == p
    {
      IsKept(c, s, a, s', t, p);
    }
    DoneOnce(s, a);
    SubmittedKept(s, a, s');
    forall g | g in s'.gs
      ensures Distinct(s'.gs[g].dead)
    {
      if g != a.g {
        assert Distinct(s.gs[g].dead);
      }
    }
  }

  lemma SubmittedKept(s: State, a: Act, s': State)
    requires Placed(s) && LawfulMove(s, a) && (a.g in s.gs || a.g.Sub?)
    requires GsEffect(s.gs, a, s'.gs) && PlaceEffect(s, a, s')
    ensures forall t :: t in s'.place <==> Sub(t) in s'.gs
  {
    forall t
      ensures t in s'.place <==> Sub(t) in s'.gs
    {
      var was := Before(s, a.g);
      assert t in was.dead ==> Is(s, t, Dead(a.g));
      assert t in was.hand ==> Is(s, t, Hand(a.g));
      assert t in s.q ==> Is(s, t, Queue);
    }
  }

  lemma DoneOnce(s: State, a: Act)
    requires Placed(s) && LawfulMove(s, a)
    ensures Distinct(Tasks(s.calls) + Tasks(a.calls))
  {
    if a.calls != [] {
      var t := a.calls[0].task;
      assert t in Tasks(a.calls) by { assert Tasks(a.calls)[0] == t; }
      HeldIsNotHandled(s, a.g, t);
      assert Tasks(a.calls) == [t];
    }
  }

  lemma HeldIsNotHandled(s: State, g: Gid, t: Task)
    requires Placed(s) && (t in Before(s, g).dead || t in Before(s, g).hand)
    ensures t !in Tasks(s.calls)
  {
    assert Is(s, t, Dead(g)) || Is(s, t, Hand(g));
    assert !Is(s, t, Handled);
  }

  lemma IsKept(c: Config, s: State, a: Act, s': State, t: Task, p: Place)
    requires Cast(c, s.gs) && Placed(s) && LawfulMove(s, a) && (a.g in s.gs || a.g.Sub?)
    requires GsEffect(s.gs, a, s'.gs) && PlaceEffect(s, a, s')
    requires s'.q == a.q && Tasks(s'.calls) == Tasks(s.calls) + Tasks(a.calls)
    ensures Is(s', t, p) <==> t in s'.place && s'.place[t] == p
  {
    WasAt(s, a, t);
    assert Is(s, t, p) <==> t in s.place && s.place[t] == p;
    match p
    case Queue =>
    case Handled =>
    case Dead(g) => DeadKept(s, a, s', t, g);
    case Hand(g) => HandKept(s, a, s', t, g);
  }

  /** Where the task was, as far as the step can move it. */
  lemma WasAt(s: State, a: Act, t: Task)
    requires Placed(s) && LawfulMove(s, a) && (a.g in s.gs || a.g.Sub?)
    ensures t in s.q <==> t in s.place && s.place[t] == Queue
    ensures t in Tasks(s.calls) <==> t in s.place && s.place[t] == Handled
    ensures t in Before(s, a.g).dead <==> t in s.place && s.place[t] == Dead(a.g)
    ensures t in Before(s, a.g).hand <==> t in s.place && s.place[t] == Hand(a.g)
    ensures t in a.arrived ==> t !in s.place
  {
    assert Is(s, t, Queue) <==> t in s.place && s.place[t] == Queue;
    assert Is(s, t, Handled) <==> t in s.place && s.place[t] == Handled;
    assert Is(s, t, Dead(a.g)) <==> t in s.place && s.place[t] == Dead(a.g);
    assert Is(s, t, Hand(a.g)) <==> t in s.place && s.place[t] == Hand(a.g);
  }

  lemma DeadKept(s: State, a: Act, s': State, t: Task, g: Gid)
    requires Placed(s) && LawfulMove(s, a) && (a.g in s.gs || a.g.Sub?)
    requires GsEffect(s.gs, a, s'.gs) && PlaceEffect(s, a, s')
    ensures Is(s', t, Dead(g)) <==> t in s'.place && s'.place[t] == Dead(g)
  {
    WasAt(s, a, t);
    if g != a.g {
      OthersKept(s, a, s', g);
      assert Is(s, t, Dead(g)) <==> t in s.place && s.place[t] == Dead(g);
    }
  }

  /** What the others hold does not change. */
  lemma OthersKept(s: State, a: Act, s': State, g: Gid)
    requires GsEffect(s.gs, a, s'.gs) && g != a.g
    ensures g in s'.gs <==> g in s.gs
    ensures g in s.gs ==> s'.gs[g].dead == s.gs[g].dead && s'.gs[g].hand == s.gs[g].hand
  {
  }

  lemma HandKept(s: State, a: Act, s': State, t: Task, g: Gid)
    requires Placed(s) && LawfulMove(s, a) && (a.g in s.gs || a.g.Sub?)
    requires GsEffect(s.gs, a, s'.gs) && PlaceEffect(s, a, s')
    ensures Is(s', t, Hand(g)) <==> t in s'.place && s'.place[t] == Hand(g)
  {
    WasAt(s, a, t);
    if g != a.g {
      OthersKept(s, a, s', g);
      assert Is(s, t, Hand(g)) <==> t in s.place && s.place[t] == Hand(g);
    }
  }

  lemma {:induction false} CountConcat(a: seq<Call>, b: seq<Call>, kind: Shed)
    ensures Count(a + b, kind) == Count(a, kind) + Count(b, kind)
  {
    if b != [] {
      assert (a + b)[..|a + b| - 1] == a + b[..|b| - 1];
      CountConcat(a, b[..|b| - 1], kind);
    } else {
      assert a + b == a;
    }
  }

  lemma TalliedKept(s: State, a: Act, s': State)
    requires Tallied(s) && s'.calls == s.calls + a.calls && s'.accepted == s.accepted + a.entered
    requires s'.acceptedCount == s.acceptedCount + |a.entered|
    requires s'.shedCount == s.shedCount + Count(a.calls, QueueLimit)
    requires s'.expiredCount == s.expiredCount + Count(a.calls, DeadlineExceeded)
    ensures Tallied(s')
  {
    CountConcat(s.calls, a.calls, QueueLimit);
    CountConcat(s.calls, a.calls, DeadlineExceeded);
  }

  lemma InOrderKept(s: State, a: Act, s': State)
    requires Placed(s) && InOrder(s) && Admitted(s) && LawfulMove(s, a)
    requires s'.q == a.q && s'.accepted == s.accepted + a.entered && s'.taken == s.taken + a.head
    ensures InOrder(s')
  {
    TakenKept(s, a);
    EnteredIsNew(s, a);
    DistinctPush(s.accepted, a.entered);
  }

  lemma EnteredIsNew(s: State, a: Act)
    requires Placed(s) && Admitted(s) && LawfulMove(s, a)
    ensures forall t :: t in a.entered ==> t !in s.accepted
  {
    forall t | t in a.entered
      ensures t !in s.accepted
    {
      assert Is(s, t, Hand(a.g));
      assert t in s.place && s.place[t] == Hand(Sub(t));
    }
  }

  lemma DistinctPush(a: seq<Task>, b: seq<Task>)
    requires Distinct(a) && |b| <= 1 && forall t :: t in b ==> t !in a
    ensures Distinct(a + b)
  {
    if b != [] {
      assert b[0] in b;
    }
  }

  lemma TakenKept(s: State, a: Act)
    requires Subsequence(s.taken + s.q, s.accepted) && Subsequence(a.head + a.q, s.q + a.entered) && |a.entered| <= 1
    ensures Subsequence((s.taken + a.head) + a.q, s.accepted + a.entered)
  {
    TakenAhead(s.taken, a.head, a.q, s.q, a.entered);
    PushBoth(s.taken + s.q, s.accepted, a.entered);
    SubsequenceTransitive((s.taken + a.head) + a.q, (s.taken + s.q) + a.entered, s.accepted + a.entered);
  }

  lemma TakenAhead(taken: seq<Task>, head: seq<Task>, q': seq<Task>, q: seq<Task>, entered: seq<Task>)
    requires Subsequence(head + q', q + entered)
    ensures Subsequence((taken + head) + q', (taken + q) + entered)
  {
    SubsequenceConcat(taken, head + q', q + entered);
    assert taken + (head + q') == (taken + head) + q';
    assert taken + (q + entered) == (taken + q) + entered;
  }

  lemma PushBoth(a: seq<Task>, b: seq<Task>, more: seq<Task>)
    requires Subsequence(a, b) && |more| <= 1
    ensures Subsequence(a + more, b + more)
  {
    if more == [] {
      assert a + more == a && b + more == b;
    } else {
      assert more == [more[0]];
      SubsequencePush(a, b, more[0]);
    }
  }

  lemma AdmittedKept(s: State, a: Act, s': State)
    requires Placed(s) && Admitted(s) && LawfulMove(s, a) && PlaceEffect(s, a, s')
    requires s'.accepted == s.accepted + a.entered
    ensures Admitted(s')
  {
    forall t | t in s'.accepted
      ensures t in s'.place && (s'.place[t].Hand? ==> s'.place[t].h.Wrk?)
    {
      assert t in a.arrived ==> t !in s.place;
    }
    forall t | t in s'.place && t !in s'.accepted
      ensures s'.place[t] == Handled || s'.place[t] == Hand(Sub(t))
    {
      assert Is(s, t, Queue) <==> t in s.place && s.place[t] == Queue;
    }
  }

  lemma TimelyKept(c: Config, s: State, a: Act, s': State)
    requires Timely(c, s) && LawfulTime(c, s, a) && LawfulMove(s, a) && GsEffect(s.gs, a, s'.gs)
    requires s'.clock == a.clock && s'.closed == s.closed && s'.calls == s.calls + a.calls
    ensures Timely(c, s')
  {
    DeadSpentKept(c, s, a, s');
    CallsFairKept(c, s, a, s');
    SubmittersTimelyKept(c, s, a, s');
  }

  lemma CallsFairKept(c: Config, s: State, a: Act, s': State)
    requires CallsFair(c, s) && LawfulTime(c, s, a)
    requires s'.clock == a.clock && s'.closed == s.closed && s'.calls == s.calls + a.calls
    ensures CallsFair(c, s')
  {
    forall i | 0 <= i < |s'.calls|
      ensures Fair(c, s', s'.calls[i])
    {
      if i < |s.calls| {
        assert Fair(c, s, s.calls[i]);
      } else {
        assert Fair(c, s.(clock := a.clock), a.calls[i - |s.calls|]);
      }
    }
  }

  lemma DeadSpentKept(c: Config, s: State, a: Act, s': State)
    requires DeadSpent(c, s) && LawfulTime(c, s, a) && LawfulMove(s, a) && GsEffect(s.gs, a, s'.gs) && s'.clock == a.clock
    ensures DeadSpent(c, s')
  {
    forall g, t | g in s'.gs && t in s'.gs[g].dead
      ensures Spent(c, t, s'.clock)
    {
      if g == a.g && t in a.swept {
        assert Spent(c, t, a.clock);
      } else {
        assert g in s.gs && t in Before(s, g).dead;
        assert Spent(c, t, s.clock);
      }
    }
  }

  lemma SubmittersTimelyKept(c: Config, s: State, a: Act, s': State)
    requires SubmittersTimely(c, s) && LawfulTime(c, s, a) && GsEffect(s.gs, a, s'.gs)
    requires s'.clock == a.clock && s'.closed == s.closed
    ensures SubmittersTimely(c, s')
  {
    forall t | Sub(t) in s'.gs
      ensures SubmitterTimely(c, s', t, s'.gs[Sub(t)])
    {
      if Sub(t) != a.g {
        assert SubmitterTimely(c, s, t, s.gs[Sub(t)]);
      }
    }
  }
}
