/** What the worker pool guarantees in every state of every run. */
module QueueTheorems {
  import opened Sequences
  import opened QueueSections
  import opened QueueMachine
  import opened QueueInvariants
  import opened QueueSteps

  /** The act behind a step that is not the closer's. */
  lemma StepAct(c: Config, s: State, e: Event) returns (a: Act)
    requires c.Valid() && Inv(c, s) && Enabled(c, s, e) && !IsClose(e)
    ensures LawfulStop(s, a) && LawfulWake(c, s, a) && LawfulMove(s, a)
    ensures a == ActOf(c, s, e) && Next(c, s, e) == Perform(s, a)
  {
    a := ActOf(c, s, e);
    StopLaw(c, s, e);
    WakeLaw(c, s, e);
    MoveLaw(c, s, e);
  }

  lemma MoveAct(c: Config, s: State, e: Event) returns (a: Act)
    requires Cast(c, s.gs) && Placed(s) && Enabled(c, s, e) && !IsClose(e)
    ensures LawfulMove(s, a) && Next(c, s, e) == Perform(s, a)
  {
    a := ActOf(c, s, e);
    MoveLaw(c, s, e);
  }

  /** Only a submitter's critical section adds to the queue, and it signals when it does. */
  lemma OnlySubmitEnters(c: Config, s: State, e: Event)
    requires Enabled(c, s, e) && |Next(c, s, e).accepted| > |s.accepted|
    ensures e.Enter? || e.Pass?
    ensures ActOf(c, s, e).entered != [] && ActOf(c, s, e).wake == One(e.woken)
  {
    if !IsClose(e) {
      AcceptedGrows(c, s, e);
      if e.Enter? || e.Pass? {
        EnterSignals(c, s, e);
      } else {
        OthersDoNotEnter(c, s, e);
      }
    }
  }

  lemma AcceptedGrows(c: Config, s: State, e: Event)
    requires Enabled(c, s, e) && !IsClose(e)
    ensures Next(c, s, e).accepted == s.accepted + ActOf(c, s, e).entered
  {
    PerformAccepts(s, ActOf(c, s, e));
  }

  lemma PerformAccepts(s: State, a: Act)
    ensures Perform(s, a).accepted == s.accepted + a.entered
  {
  }

  lemma EnterSignals(c: Config, s: State, e: Event)
    requires Enabled(c, s, e) && (e.Enter? || e.Pass?)
    ensures ActOf(c, s, e).entered != [] ==> ActOf(c, s, e).wake == One(e.woken)
  {
    match e
    case Enter(t, now1, now2, woken) =>
      SubmitSignals(s, t, s.gs[Sub(t)], GateSection(c, s.q, s.closed, t, now1, now2),
                    Armed(now1 + LeftAt(c, t, now1)), woken, now2);
    case Pass(t, now, woken) =>
      var me := s.gs[Sub(t)];
      SubmitSignals(s, t, me, WaitSection(c, s.q, s.closed, me.timer == Fired, t, now), me.timer, woken, now);
  }

  lemma SubmitSignals(s: State, t: Task, me: G, out: SubmitOut, timer: Timer, woken: Gid, now: int)
    requires out.step == Entered ==> out.cond == Signal
    ensures var a := SubmitAct(s, t, me, out, timer, woken, now); a.entered != [] ==> a.wake == One(woken)
  {
  }

  lemma OthersDoNotEnter(c: Config, s: State, e: Event)
    requires Enabled(c, s, e) && !IsClose(e) && !e.Enter? && !e.Pass?
    ensures ActOf(c, s, e).entered == []
  {
  }

  // ------------------------------------------------------------------ waking

  /** No lost wake-up: whoever sleeps has a reason to, and work is never left to sleepers. */
  lemma NoLostWakeup(c: Config, tr: seq<State>, es: seq<Event>, n: nat)
    requires c.Valid() && IsRun(c, tr, es) && n < |tr|
    ensures var s := tr[n];
      && |s.q| <= c.depth
      && (forall t :: Sub(t) in s.gs && s.gs[Sub(t)].pc == Asleep ==>
            |s.q| == c.depth && s.gs[Sub(t)].timer.Armed? && !s.closed)
      && ((exists g :: g in s.gs && g.Wrk? && s.gs[g].pc == Asleep) ==> |Ready(s.gs)| >= |s.q|)
      && (s.q != [] ==> exists g :: g in s.gs && g.Wrk? && s.gs[g].pc != Asleep && s.gs[g].pc != Gone)
      && (s.closed ==> !SomeAsleep(s.gs))
  {
    InvRun(c, tr, es, n);
    var s := tr[n];
    if s.q != [] {
      assert Wrk(0) in s.gs;
      if s.gs[Wrk(0)].pc == Asleep {
        var g :| g in Ready(s.gs);
        assert g == Wrk(g.i);
      } else {
        assert !Stopped(s.gs[Wrk(0)]);
      }
    }
  }

  /** The `Signal` of an enqueue finds only workers asleep, so it cannot wake a submitter. */
  lemma SignalReachesAWorker(c: Config, tr: seq<State>, es: seq<Event>, n: nat, g: Gid)
    requires c.Valid() && IsRun(c, tr, es) && n < |es|
    requires |tr[n + 1].accepted| > |tr[n].accepted|
    requires g in tr[n].gs && tr[n].gs[g].pc == Asleep
    ensures g.Wrk?
    ensures (es[n].Enter? || es[n].Pass?) && es[n].woken.Wrk?
    ensures es[n].woken in tr[n + 1].gs && tr[n + 1].gs[es[n].woken].pc == Pop
  {
    InvRun(c, tr, es, n);
    OnlySubmitEnters(c, tr[n], es[n]);
    SignalStep(c, tr[n], es[n], g);
  }

  lemma SignalStep(c: Config, s: State, e: Event, g: Gid)
    requires c.Valid() && Inv(c, s) && Enabled(c, s, e) && (e.Enter? || e.Pass?)
    requires ActOf(c, s, e).entered != [] && ActOf(c, s, e).wake.One? && g in s.gs && s.gs[g].pc == Asleep
    ensures var s' := Next(c, s, e);
      var h := ActOf(c, s, e).wake.g;
      g.Wrk? && h.Wrk? && h in s'.gs && s'.gs[h].pc == Pop
  {
    var a := StepAct(c, s, e);
    PerformGs(s, a);
    SignalWakes(c, s, a, Perform(s, a), g);
  }

  lemma SignalWakes(c: Config, s: State, a: Act, s': State, g: Gid)
    requires Cast(c, s.gs) && Wakeful(c, s) && LawfulWake(c, s, a) && LawfulMove(s, a) && GsEffect(s.gs, a, s'.gs)
    requires a.entered != [] && a.wake.One? && g in s.gs && s.gs[g].pc == Asleep
    ensures g.Wrk? && a.wake.g.Wrk? && a.wake.g in s'.gs && s'.gs[a.wake.g].pc == Pop
  {
    assert a.entered[0] in a.entered;
    assert MayWake(s.gs, a.wake.g) && s.gs[a.wake.g].pc == Asleep;
    assert ShapeOf(a.wake.g, s.gs[a.wake.g]);
  }

  ghost function Actor(e: Event): Gid {
    match e
    case Arrive(t, _) => Sub(t)
    case Sweep(g, _) => g
    case Answer(g) => g
    case Enter(t, _, _, _) => Sub(t)
    case Pass(t, _, _) => Sub(t)
    case Fire(t, _) => Sub(t)
    case AnswerOwn(t) => Sub(t)
    case TakeNext(i, _) => Wrk(i)
    case Handle(i, _) => Wrk(i)
    case Leave(i) => Wrk(i)
    case _ => Swp
  }

  /** Deadlock freedom: a goroutine that has not finished can take a step, unless it is a worker
      asleep in an open pool. (A sleeping submitter is woken by its timer.) */
  lemma NeverStuck(c: Config, tr: seq<State>, es: seq<Event>, n: nat, g: Gid)
    requires c.Valid() && IsRun(c, tr, es) && n < |tr|
    requires g in tr[n].gs && tr[n].gs[g].pc != Gone
    ensures HasStep(c, tr[n], g) || (g.Wrk? && tr[n].gs[g].pc == Asleep && !tr[n].closed)
  {
    InvRun(c, tr, es, n);
    CanStep(c, tr[n], g);
  }

  ghost predicate HasStep(c: Config, s: State, g: Gid) {
    exists e :: Enabled(c, s, e) && Actor(e) == g
  }

  lemma CanStep(c: Config, s: State, g: Gid)
    requires Cast(c, s.gs) && Stops(s) && Wakeful(c, s) && g in s.gs && s.gs[g].pc != Gone
    ensures HasStep(c, s, g) || (g.Wrk? && s.gs[g].pc == Asleep && !s.closed)
  {
    var me := s.gs[g];
    assert ShapeOf(g, me);
    if me.dead != [] {
      assert Enabled(c, s, Answer(g)) && Actor(Answer(g)) == g;
    } else {
      match g
      case Sub(t) => SubmitterCanStep(c, s, t);
      case Wrk(i) => WorkerCanStep(c, s, i);
      case Swp => assert Enabled(c, s, Sweep(Swp, s.clock)) && Actor(Sweep(Swp, s.clock)) == g;
    }
  }

  lemma WorkerCanStep(c: Config, s: State, i: nat)
    requires Wrk(i) in s.gs && ShapeOf(Wrk(i), s.gs[Wrk(i)]) && s.gs[Wrk(i)].dead == [] && s.gs[Wrk(i)].pc != Gone
    requires s.closed ==> s.gs[Wrk(i)].pc != Asleep
    ensures HasStep(c, s, Wrk(i)) || (s.gs[Wrk(i)].pc == Asleep && !s.closed)
  {
    var pc := s.gs[Wrk(i)].pc;
    if pc != Asleep {
      var e := if pc == Pop then TakeNext(i, s.clock) else if pc == Serve then Handle(i, s.clock) else Leave(i);
      assert Enabled(c, s, e) && Actor(e) == Wrk(i);
    }
  }

  lemma SubmitterCanStep(c: Config, s: State, t: Task)
    requires Sub(t) in s.gs && ShapeOf(Sub(t), s.gs[Sub(t)]) && s.gs[Sub(t)].dead == [] && s.gs[Sub(t)].pc != Gone
    requires s.gs[Sub(t)].pc == Asleep ==> s.gs[Sub(t)].timer.Armed?
    ensures HasStep(c, s, Sub(t))
  {
    var me := s.gs[Sub(t)];
    var woken := Wakeable(s);
    var e :=
      match me.pc
      case Collect => Sweep(Sub(t), s.clock)
      case Gate => Enter(t, s.clock, s.clock, woken)
      case Retry => Pass(t, s.clock, woken)
      case Asleep => Fire(t, if me.timer.at > s.clock then me.timer.at else s.clock)
      case _ => AnswerOwn(t);
    assert Enabled(c, s, e) && Actor(e) == Sub(t);
  }

  lemma Wakeable(s: State) returns (woken: Gid)
    ensures MayWake(s.gs, woken)
  {
    woken := Swp;
    if SomeAsleep(s.gs) {
      woken :| woken in s.gs && s.gs[woken].pc == Asleep;
    }
  }

  // ------------------------------------------------------------------ exactly once

  /** Each submitted task is in exactly one place: with its Submit call, in the queue, on one
      goroutine's dead list, in one worker's hand, or handled; and the handler has been called
      for it once if it is handled, never otherwise. */
  lemma ExactlyOnce(c: Config, tr: seq<State>, es: seq<Event>, n: nat, t: Task)
    requires c.Valid() && IsRun(c, tr, es) && n < |tr| && Sub(t) in tr[n].gs
    ensures exists p :: Is(tr[n], t, p) && forall p' :: Is(tr[n], t, p') ==> p' == p
    ensures multiset(tr[n].q)[t] <= 1
    ensures multiset(Tasks(tr[n].calls))[t] == if Is(tr[n], t, Handled) then 1 else 0
  {
    InvRun(c, tr, es, n);
    var s := tr[n];
    assert Is(s, t, s.place[t]);
    DistinctCounts(s.q, t);
    DistinctCounts(Tasks(s.calls), t);
  }

  lemma {:induction false} DistinctCounts<T(!new)>(s: seq<T>, x: T)
    requires Distinct(s)
    ensures multiset(s)[x] == if x in s then 1 else 0
  {
    if s != [] {
      var n := |s| - 1;
      assert s == s[..n] + [s[n]];
      DistinctCounts(s[..n], x);
      assert s[n] !in s[..n];
    }
  }

  /** A task is handled for good: later steps of the run never call the handler for it again. */
  lemma HandledOnce(c: Config, tr: seq<State>, es: seq<Event>, n: nat, t: Task)
    requires c.Valid() && IsRun(c, tr, es) && n < |es| && Is(tr[n], t, Handled)
    ensures tr[n + 1].calls == tr[n].calls || (|tr[n + 1].calls| == |tr[n].calls| + 1
      && tr[n + 1].calls[..|tr[n].calls|] == tr[n].calls && tr[n + 1].calls[|tr[n].calls|].task != t)
  {
    InvRun(c, tr, es, n);
    HandledStep(c, tr[n], es[n], t);
  }

  lemma HandledStep(c: Config, s: State, e: Event, t: Task)
    requires Cast(c, s.gs) && Placed(s) && Enabled(c, s, e) && Is(s, t, Handled)
    ensures var calls := Next(c, s, e).calls;
      calls == s.calls || (|calls| == |s.calls| + 1 && calls[..|s.calls|] == s.calls && calls[|s.calls|].task != t)
  {
    if !IsClose(e) {
      var a := MoveAct(c, s, e);
      CallsAfter(s, a, Perform(s, a), t);
    }
  }

  lemma CallsAfter(s: State, a: Act, s': State, t: Task)
    requires Placed(s) && LawfulMove(s, a) && Is(s, t, Handled) && s'.calls == s.calls + a.calls
    ensures s'.calls == s.calls
      || (|s'.calls| == |s.calls| + 1 && s'.calls[..|s.calls|] == s.calls && s'.calls[|s.calls|].task != t)
  {
    NotCalledAgain(s, a, t);
  }

  lemma NotCalledAgain(s: State, a: Act, t: Task)
    requires Placed(s) && LawfulMove(s, a) && Is(s, t, Handled)
    ensures a.calls != [] ==> a.calls[0].task != t
  {
    if a.calls != [] {
      var u := a.calls[0].task;
      assert Tasks(a.calls)[0] == u && u in Tasks(a.calls);
      assert Is(s, u, Dead(a.g)) || Is(s, u, Hand(a.g));
      assert !Is(s, u, Handled);
    }
  }

  // ------------------------------------------------------------------ accounting

  ghost function Submitted(s: State): set<Task> {
    set g | g in s.gs && g.Sub? :: g.t
  }

  /** Submitted and not yet answered: with a Submit call, queued, dead or with a worker. */
  ghost function InFlight(s: State): set<Task> {
    set t | t in Submitted(s) && !Is(s, t, Handled)
  }

  ghost function Held(s: State): set<Task> {
    set t | t in s.accepted && !Is(s, t, Queue) && !Is(s, t, Handled)
  }

  ghost function Finished(s: State): set<Task> {
    set t | t in s.accepted && Is(s, t, Handled)
  }

  lemma {:induction false} DistinctCard<T(!new)>(s: seq<T>)
    requires Distinct(s)
    ensures |set x | x in s| == |s|
  {
    if s != [] {
      var n := |s| - 1;
      DistinctCard(s[..n]);
      assert s[n] !in s[..n];
      assert (set x | x in s) == (set x | x in s[..n]) + {s[n]};
    }
  }

  lemma {:induction false} CountAll(calls: seq<Call>)
    ensures Count(calls, NotShed) + Count(calls, QueueLimit) + Count(calls, DeadlineExceeded) == |calls|
  {
    if calls != [] {
      CountAll(calls[..|calls| - 1]);
    }
  }

  /** submitted = evaluated + Expired + Shed + in flight, and
      Accepted = queued + held by a sweep or a worker + finished after acceptance. */
  lemma Accounting(c: Config, tr: seq<State>, es: seq<Event>, n: nat)
    requires c.Valid() && IsRun(c, tr, es) && n < |tr|
    ensures var s := tr[n];
      && |Submitted(s)| == Count(s.calls, NotShed) + s.expiredCount + s.shedCount + |InFlight(s)|
      && s.acceptedCount == |s.q| + |Held(s)| + |Finished(s)|
      && (forall t :: t in Held(s) ==> IsHeld(s, t))
  {
    InvRun(c, tr, es, n);
    SubmittedSplit(tr[n]);
    AcceptedSplit(tr[n]);
    HeldSomewhere(tr[n]);
  }

  /** On some goroutine's dead list or in a worker's hand. */
  ghost predicate IsHeld(s: State, t: Task) {
    exists g :: g in s.gs && (t in s.gs[g].dead || (g.Wrk? && t in s.gs[g].hand))
  }

  lemma HeldSomewhere(s: State)
    requires Placed(s) && Admitted(s)
    ensures forall t :: t in Held(s) ==> IsHeld(s, t)
  {
    forall t | t in Held(s)
      ensures IsHeld(s, t)
    {
      assert Is(s, t, s.place[t]);
    }
  }

  lemma SubmittedSplit(s: State)
    requires Placed(s) && Tallied(s)
    ensures |Submitted(s)| == Count(s.calls, NotShed) + s.expiredCount + s.shedCount + |InFlight(s)|
  {
    CountAll(s.calls);
    var done := set t | t in Tasks(s.calls);
    DistinctCard(Tasks(s.calls));
    HandledWereSubmitted(s);
    assert Submitted(s) == done + InFlight(s);
  }

  lemma HandledWereSubmitted(s: State)
    requires Placed(s)
    ensures forall t :: t in Tasks(s.calls) ==> t in Submitted(s)
  {
    forall t | t in Tasks(s.calls)
      ensures t in Submitted(s)
    {
      assert Is(s, t, Handled);
      assert Sub(t) in s.gs && Sub(t).t == t;
    }
  }

  lemma AcceptedSplit(s: State)
    requires Placed(s) && InOrder(s) && Admitted(s)
    ensures |s.accepted| == |s.q| + |Held(s)| + |Finished(s)|
  {
    QueuedAccepted(s);
    SplitCard(s.accepted, s.q, Held(s), Finished(s), Tasks(s.calls));
  }

  lemma SplitCard(all: seq<Task>, q: seq<Task>, held: set<Task>, finished: set<Task>, done: seq<Task>)
    requires Distinct(all) && Distinct(q)
    requires forall t :: t in q ==> t in all && t !in done
    requires forall t :: t in held <==> t in all && t !in q && t !in done
    requires forall t :: t in finished <==> t in all && t in done
    ensures |all| == |q| + |held| + |finished|
  {
    DistinctCard(q);
    DistinctCard(all);
    CardOfThree((set t | t in all), (set t | t in q), held, finished);
  }

  lemma QueuedAccepted(s: State)
    requires Placed(s) && InOrder(s) && Admitted(s)
    ensures forall t :: t in s.q ==> t in s.accepted && !Is(s, t, Handled)
  {
    forall t
      ensures t in s.q ==> t in s.accepted && !Is(s, t, Handled)
    {
      assert Is(s, t, Queue) <==> t in s.q;
      assert Is(s, t, Queue) <==> t in s.place && s.place[t] == Queue;
      assert Is(s, t, Handled) <==> t in s.place && s.place[t] == Handled;
    }
  }

  lemma CardOfThree<T>(all: set<T>, a: set<T>, b: set<T>, d: set<T>)
    requires all == a + b + d && a !! b && (a + b) !! d
    ensures |all| == |a| + |b| + |d|
  {
  }

  // ------------------------------------------------------------------ closing

  /** Nothing enters the queue after Close has locked the pool. */
  lemma NoEntryAfterClose(c: Config, tr: seq<State>, es: seq<Event>, i: nat, j: nat)
    requires c.Valid() && IsRun(c, tr, es) && i <= j < |tr| && tr[i].closed
    ensures tr[j].closed && tr[j].accepted == tr[i].accepted
  {
    forall k: nat | k < |es|
      ensures Frozen(tr, k)
    {
      ClosedAt(c, tr, es, k);
    }
    StaysFrozen(tr, i, j);
  }

  /** If the pool is closed before step k, it is closed after, with nothing new accepted. */
  ghost predicate Frozen(tr: seq<State>, k: nat)
    requires k + 1 < |tr|
  {
    tr[k].closed ==> tr[k + 1].closed && tr[k + 1].accepted == tr[k].accepted
  }

  lemma {:induction false} StaysFrozen(tr: seq<State>, i: nat, j: nat)
    requires i <= j < |tr| && tr[i].closed && forall k: nat :: k + 1 < |tr| ==> Frozen(tr, k)
    ensures tr[j].closed && tr[j].accepted == tr[i].accepted
    decreases j
  {
    if i < j {
      StaysFrozen(tr, i, j - 1);
      assert Frozen(tr, j - 1);
    }
  }

  lemma ClosedAt(c: Config, tr: seq<State>, es: seq<Event>, k: nat)
    requires c.Valid() && IsRun(c, tr, es) && k < |es|
    ensures Frozen(tr, k)
  {
    if tr[k].closed {
      InvRun(c, tr, es, k);
      ClosedStep(c, tr[k], es[k]);
    }
  }

  lemma ClosedStep(c: Config, s: State, e: Event)
    requires c.Valid() && Cast(c, s.gs) && Stops(s) && Enabled(c, s, e) && s.closed
    ensures Next(c, s, e).closed && Next(c, s, e).accepted == s.accepted
  {
    if !IsClose(e) {
      StopLaw(c, s, e);
    }
  }

  /** When Close has returned the queue is empty, and every accepted task has been handled unless
      a Submit call that is still running holds it on its dead list. */
  lemma CloseDrains(c: Config, tr: seq<State>, es: seq<Event>, n: nat, t: Task)
    requires c.Valid() && IsRun(c, tr, es) && n < |tr| && tr[n].closer == Returned
    ensures tr[n].q == []
    ensures t in tr[n].accepted ==> Is(tr[n], t, Handled) || exists u :: Is(tr[n], t, Dead(Sub(u)))
  {
    InvRun(c, tr, es, n);
    var s := tr[n];
    assert Wrk(0) in s.gs && Stopped(s.gs[Wrk(0)]);
    if t in s.accepted {
      var p := s.place[t];
      assert Is(s, t, p);
      if p.Dead? {
        assert ShapeOf(p.g, s.gs[p.g]);
        assert p == Dead(Sub(p.g.t));
      }
    }
  }

  // ------------------------------------------------------------------ order and deadlines

  /** Workers take tasks in the order they were accepted, ahead of everything still queued. */
  lemma TakenInOrder(c: Config, tr: seq<State>, es: seq<Event>, n: nat)
    requires c.Valid() && IsRun(c, tr, es) && n < |tr|
    ensures Subsequence(tr[n].taken + tr[n].q, tr[n].accepted) && Distinct(tr[n].accepted)
  {
    InvRun(c, tr, es, n);
  }

  /** A task on a dead list could not meet the minimum budget at any later time; the handler
      runs unshed only with the minimum budget, which is no less than what is left now; an
      expired answer is given only to a task out of time or to a closed pool's; and tasks are
      turned away only in drop mode. */
  lemma DeadlinesHonoured(c: Config, tr: seq<State>, es: seq<Event>, n: nat)
    requires c.Valid() && IsRun(c, tr, es) && n < |tr|
    ensures forall g, t, later :: g in tr[n].gs && t in tr[n].gs[g].dead && tr[n].clock <= later ==> Spent(c, t, later)
    ensures forall i :: 0 <= i < |tr[n].calls| ==>
      var call := tr[n].calls[i];
      && (call.shed == NotShed ==> call.budget >= c.minBudget && call.budget >= LeftAt(c, call.task, tr[n].clock))
      && (call.shed == DeadlineExceeded ==>
            tr[n].closed || Spent(c, call.task, tr[n].clock) || LeftAt(c, call.task, tr[n].clock) <= 0)
      && (call.shed == QueueLimit ==> c.full == Drop)
  {
    InvRun(c, tr, es, n);
    DeadForGood(c, tr[n]);
    forall i | 0 <= i < |tr[n].calls|
      ensures Fair(c, tr[n], tr[n].calls[i])
    {
    }
  }

  lemma DeadForGood(c: Config, s: State)
    requires Timely(c, s)
    ensures forall g, t, later :: g in s.gs && t in s.gs[g].dead && s.clock <= later ==> Spent(c, t, later)
  {
    forall g, t, later | g in s.gs && t in s.gs[g].dead && s.clock <= later
      ensures Spent(c, t, later)
    {
      assert Spent(c, t, s.clock);
    }
  }
}
