/** How submitters and workers decide: what each step does with a task, told from the task's own
    numbers and the state of the pool, and that a pool in drop mode keeps no submitter waiting. */
module QueueModes {
  import opened QueueSections
  import opened QueueMachine
  import opened QueueInvariants
  import opened QueueSteps
  import opened QueueTheorems

  // ------------------------------------------------------------------ drop mode

  predicate Waiting(me: G) {
    me.pc == Asleep || me.pc == Retry || me.timer != NoTimer
  }

  ghost predicate NoneWaits(s: State) {
    forall t :: Sub(t) in s.gs ==> !Waiting(s.gs[Sub(t)])
  }

  lemma SectionEnds(s: State, t: Task, me: G, out: SubmitOut, timer: Timer, woken: Gid, now: int)
    requires !out.step.Waits? && !out.step.Retries?
    ensures SubmitAct(s, t, me, out, timer, woken, now).g == Sub(t)
    ensures SubmitAct(s, t, me, out, timer, woken, now).me.pc !in {Asleep, Retry}
    ensures SubmitAct(s, t, me, out, timer, woken, now).me.timer == me.timer
  {
  }

  lemma OthersDoNotWait(c: Config, s: State, e: Event)
    requires NoneWaits(s) && Enabled(c, s, e) && !IsClose(e) && !e.Enter? && !e.Pass?
    ensures ActOf(c, s, e).g.Sub? ==> !Waiting(ActOf(c, s, e).me)
  {
  }

  lemma DropActs(c: Config, s: State, e: Event)
    requires c.full == Drop && NoneWaits(s) && Enabled(c, s, e) && !IsClose(e)
    ensures ActOf(c, s, e).g.Sub? ==> !Waiting(ActOf(c, s, e).me)
  {
    match e
    case Enter(t, now1, now2, woken) =>
      SectionEnds(s, t, s.gs[Sub(t)], GateSection(c, s.q, s.closed, t, now1, now2), Armed(now1 + LeftAt(c, t, now1)), woken, now2);
    case Pass(_, _, _) => assert false;
    case _ => OthersDoNotWait(c, s, e);
  }

  lemma NoneWaitsKept(s: State, a: Act, s': State)
    requires NoneWaits(s) && GsEffect(s.gs, a, s'.gs) && (a.g.Sub? ==> !Waiting(a.me))
    ensures NoneWaits(s')
  {
  }

  lemma CloserWakes(c: Config, s: State, e: Event)
    requires NoneWaits(s) && Enabled(c, s, e) && IsClose(e)
    ensures NoneWaits(Next(c, s, e))
  {
  }

  lemma DropStep(c: Config, s: State, e: Event)
    requires c.full == Drop && NoneWaits(s) && Enabled(c, s, e)
    ensures NoneWaits(Next(c, s, e))
  {
    if IsClose(e) {
      CloserWakes(c, s, e);
    } else {
      var a := ActOf(c, s, e);
      DropActs(c, s, e);
      PerformGs(s, a);
      NoneWaitsKept(s, a, Next(c, s, e));
    }
  }

  lemma {:induction false} DropRun(c: Config, tr: seq<State>, es: seq<Event>, n: nat)
    requires IsRun(c, tr, es) && c.full == Drop && n < |tr|
    ensures NoneWaits(tr[n])
  {
    if n > 0 {
      DropRun(c, tr, es, n - 1);
      DropStep(c, tr[n - 1], es[n - 1]);
    }
  }

  /** In drop mode no submitter ever sleeps, goes round the waiting loop, or has a timer. */
  lemma DropNeverWaits(c: Config, tr: seq<State>, es: seq<Event>, n: nat, t: Task)
    requires IsRun(c, tr, es) && c.full == Drop && n < |tr| && Sub(t) in tr[n].gs
    ensures tr[n].gs[Sub(t)].pc != Asleep && tr[n].gs[Sub(t)].pc != Retry && tr[n].gs[Sub(t)].timer == NoTimer
  {
    DropRun(c, tr, es, n);
  }

  // ------------------------------------------------------------------ what each step decides

  /** A step changes its own goroutine to what its act says. */
  lemma Itself(c: Config, s: State, e: Event) returns (a: Act)
    requires Enabled(c, s, e) && !IsClose(e)
    ensures a == ActOf(c, s, e) && a.g in Next(c, s, e).gs && Next(c, s, e).gs[a.g] == a.me
    ensures Next(c, s, e).q == a.q && Next(c, s, e).calls == s.calls + a.calls
  {
    a := ActOf(c, s, e);
    PerformGs(s, a);
  }

  /** A task that arrives without the minimum budget is answered as expired, with what it has left. */
  lemma ArriveDecides(c: Config, s: State, t: Task, now: int)
    requires Enabled(c, s, Arrive(t, now))
    ensures var s' := Next(c, s, Arrive(t, now));
      var left := t.deadline - (now - t.enqueued) - c.reserve;
      Sub(t) in s'.gs && s'.gs[Sub(t)].pc == if left < c.minBudget then Expiring(left) else Collect
  {
    var a := Itself(c, s, Arrive(t, now));
  }

  /** Where a submitter stands after it took the lock: in the queue, turned away, about to be answered as
      expired with what it has left, or waiting with a timer for the end of its time. */
  ghost predicate Stands(c: Config, s: State, t: Task, now1: int, now2: int, me: G) {
    var full, left := |s.q| >= c.depth, t.deadline - (now1 - t.enqueued) - c.reserve;
    var waits := !s.closed && full && c.full == Wait && left >= c.minBudget;
    && (me.pc == Gone <==> !s.closed && !full)
    && (me.pc == Shedding <==> !s.closed && full && c.full == Drop)
    && (me.pc.Expiring? <==> s.closed || (full && c.full == Wait && left < c.minBudget))
    && (me.pc.Expiring? ==> me.pc.left == if s.closed then 0 else left)
    && (me.pc == Retry <==> waits && SomeLate(c, s.q, now2))
    && (me.pc == Asleep <==> waits && !SomeLate(c, s.q, now2))
    && (waits ==> me.timer == Armed(t.enqueued + t.deadline - c.reserve))
  }

  lemma EnterStands(c: Config, s: State, t: Task, now1: int, now2: int, woken: Gid)
    requires Sub(t) in s.gs
    ensures EnterAct(c, s, t, now1, now2, woken).g == Sub(t)
    ensures Stands(c, s, t, now1, now2, EnterAct(c, s, t, now1, now2, woken).me)
  {
    GateDecides(c, s.q, s.closed, t, now1, now2);
    PcOfStep(s, t, s.gs[Sub(t)], GateSection(c, s.q, s.closed, t, now1, now2), Armed(now1 + LeftAt(c, t, now1)), woken, now2);
  }

  /** How a submitter that took the lock goes on. */
  lemma EnterDecides(c: Config, s: State, t: Task, now1: int, now2: int, woken: Gid)
    requires Enabled(c, s, Enter(t, now1, now2, woken))
    ensures var s' := Next(c, s, Enter(t, now1, now2, woken));
      Sub(t) in s'.gs && Stands(c, s, t, now1, now2, s'.gs[Sub(t)])
  {
    var a := Itself(c, s, Enter(t, now1, now2, woken));
    EnterStands(c, s, t, now1, now2, woken);
  }

  lemma PcOfStep(s: State, t: Task, me: G, out: SubmitOut, timer: Timer, woken: Gid, now: int)
    ensures var a := SubmitAct(s, t, me, out, timer, woken, now);
      && a.g == Sub(t)
      && (a.me.pc == Gone <==> out.step == Entered)
      && (a.me.pc == Shedding <==> out.step == TurnedAway)
      && (a.me.pc.Expiring? <==> out.step in {Closed, TimeUp} || out.step.NoTime?)
      && (a.me.pc.Expiring? ==> a.me.pc.left == if out.step.NoTime? then out.step.left else 0)
      && (a.me.pc == Retry <==> out.step == Retries)
      && (a.me.pc == Asleep <==> out.step == Waits)
      && (out.step in {Retries, Waits} ==> a.me.timer == timer)
  {
  }

  /** How a submitter in the waiting loop goes on. */
  lemma PassDecides(c: Config, s: State, t: Task, now: int, woken: Gid)
    requires Enabled(c, s, Pass(t, now, woken))
    ensures var s' := Next(c, s, Pass(t, now, woken));
      var full, timedOut := |s.q| >= c.depth, s.gs[Sub(t)].timer == Fired;
      && Sub(t) in s'.gs
      && var pc := s'.gs[Sub(t)].pc;
      && (pc == Gone <==> !s.closed && !full)
      && (pc.Expiring? <==> s.closed || (full && timedOut))
      && (pc.Expiring? ==> pc.left == 0)
      && (pc == Retry <==> !s.closed && full && !timedOut && SomeLate(c, s.q, now))
      && (pc == Asleep <==> !s.closed && full && !timedOut && !SomeLate(c, s.q, now))
      && (pc == Asleep || pc == Retry ==> s'.gs[Sub(t)].timer == s.gs[Sub(t)].timer)
  {
    var a := Itself(c, s, Pass(t, now, woken));
    var me := s.gs[Sub(t)];
    WaitDecides(c, s.q, s.closed, me.timer == Fired, t, now);
    PcOfStep(s, t, me, WaitSection(c, s.q, s.closed, me.timer == Fired, t, now), me.timer, woken, now);
  }

  /** A worker hands its task to the handler with the budget left, as expired if that is below the
      minimum and as a task to evaluate otherwise. */
  lemma HandleDecides(c: Config, s: State, i: nat, now: int)
    requires Enabled(c, s, Handle(i, now))
    ensures var t := s.gs[Wrk(i)].hand[0];
      var left := t.deadline - (now - t.enqueued) - c.reserve;
      Next(c, s, Handle(i, now)).calls == s.calls + [Call(t, left, if left < c.minBudget then DeadlineExceeded else NotShed)]
  {
    var a := Itself(c, s, Handle(i, now));
  }

  lemma ActorActs(c: Config, s: State, e: Event)
    requires Enabled(c, s, e) && !IsClose(e)
    ensures ActOf(c, s, e).g == Actor(e)
  {
  }

  lemma OthersStay(s: State, a: Act, s': State, g: Gid)
    requires GsEffect(s.gs, a, s'.gs) && g in s.gs && s.gs[g].pc != Asleep && a.g != g
    ensures g in s'.gs && s'.gs[g] == s.gs[g]
  {
  }

  lemma ClosersStay(c: Config, s: State, e: Event, g: Gid)
    requires Enabled(c, s, e) && IsClose(e) && g in s.gs && s.gs[g].pc != Asleep
    ensures g in Next(c, s, e).gs && Next(c, s, e).gs[g] == s.gs[g]
  {
  }

  /** A goroutine is changed by others only out of its sleep. */
  lemma OnlySleepersChange(c: Config, s: State, e: Event, g: Gid)
    requires Enabled(c, s, e) && g in s.gs && s.gs[g].pc != Asleep && Actor(e) != g
    ensures g in Next(c, s, e).gs && Next(c, s, e).gs[g] == s.gs[g]
  {
    if IsClose(e) {
      ClosersStay(c, s, e, g);
    } else {
      ActorActs(c, s, e);
      PerformGs(s, ActOf(c, s, e));
      OthersStay(s, ActOf(c, s, e), Perform(s, ActOf(c, s, e)), g);
    }
  }

  lemma ShedStep(c: Config, s: State, t: Task, now1: int, now2: int, woken: Gid)
    requires Enabled(c, s, Enter(t, now1, now2, woken)) && !s.closed && |s.q| >= c.depth && c.full == Drop
    ensures var s' := Next(c, s, Enter(t, now1, now2, woken));
      s'.q == s.q && s'.calls == s.calls && Sub(t) in s'.gs && s'.gs[Sub(t)].pc == Shedding
  {
    var a := Itself(c, s, Enter(t, now1, now2, woken));
  }

  lemma ShedAnswer(c: Config, s: State, t: Task)
    requires Sub(t) in s.gs && s.gs[Sub(t)].pc == Shedding && s.gs[Sub(t)].timer == NoTimer && s.gs[Sub(t)].dead == []
    ensures Answering(c, s, t)
  {
    var a := Itself(c, s, AnswerOwn(t));
  }

  /** The one step left to the submitter of `t` is the answer that the queue is at its limit. */
  ghost predicate Answering(c: Config, s: State, t: Task) {
    && (forall e :: Enabled(c, s, e) && Actor(e) == Sub(t) ==> e == AnswerOwn(t))
    && Enabled(c, s, AnswerOwn(t))
    && Next(c, s, AnswerOwn(t)).calls == s.calls + [Call(t, 0, QueueLimit)]
  }

  ghost predicate Follows(c: Config, s: State, e: Event, s': State) {
    Enabled(c, s, e) && s' == Next(c, s, e)
  }

  lemma RunFollows(c: Config, tr: seq<State>, es: seq<Event>, k: nat)
    requires IsRun(c, tr, es) && k < |es|
    ensures Follows(c, tr[k], es[k], tr[k + 1])
  {
  }

  ghost predicate TurnedDown(s: State, t: Task) {
    Sub(t) in s.gs && s.gs[Sub(t)].pc == Shedding
  }

  lemma ShedNow(c: Config, tr: seq<State>, es: seq<Event>, m: nat, t: Task)
    requires c.Valid() && IsRun(c, tr, es) && m < |tr| && c.full == Drop && TurnedDown(tr[m], t)
    ensures Answering(c, tr[m], t)
  {
    DropNeverWaits(c, tr, es, m, t);
    InvRun(c, tr, es, m);
    assert ShapeOf(Sub(t), tr[m].gs[Sub(t)]);
    ShedAnswer(c, tr[m], t);
  }

  /** Step k leaves a task that is turned away turned away. */
  ghost predicate Leaves(tr: seq<State>, k: nat, t: Task)
    requires k + 1 < |tr|
  {
    TurnedDown(tr[k], t) ==> TurnedDown(tr[k + 1], t)
  }

  lemma ShedStays(c: Config, tr: seq<State>, es: seq<Event>, k: nat, t: Task)
    requires c.Valid() && IsRun(c, tr, es) && k < |es| && c.full == Drop && es[k] != AnswerOwn(t)
    ensures Leaves(tr, k, t)
  {
    if TurnedDown(tr[k], t) {
      ShedNow(c, tr, es, k, t);
      RunFollows(c, tr, es, k);
      OnlySleepersChange(c, tr[k], es[k], Sub(t));
    }
  }

  lemma {:induction false} StaysTurnedDown(tr: seq<State>, n: nat, m: nat, t: Task)
    requires n <= m < |tr| && TurnedDown(tr[n], t)
    requires forall k: nat :: n <= k < m ==> Leaves(tr, k, t)
    ensures TurnedDown(tr[m], t)
  {
    if n < m {
      StaysTurnedDown(tr, n, m - 1, t);
      assert Leaves(tr, m - 1, t);
    }
  }

  /** A task that finds a full open pool in drop mode is turned away: nothing else changes, and from
      then on, until it is given, the one step left to its submitter is the answer that the queue is
      at its limit. */
  lemma TurnedAwayAtOnce(c: Config, tr: seq<State>, es: seq<Event>, n: nat, m: nat, t: Task)
    requires c.Valid() && IsRun(c, tr, es) && n < m < |tr|
    requires es[n].Enter? && es[n].t == t && !tr[n].closed && |tr[n].q| >= c.depth && c.full == Drop
    requires forall k :: n < k < m ==> es[k] != AnswerOwn(t)
    ensures tr[n + 1].q == tr[n].q && tr[n + 1].calls == tr[n].calls
    ensures TurnedDown(tr[m], t) && Answering(c, tr[m], t)
  {
    RunFollows(c, tr, es, n);
    ShedStep(c, tr[n], t, es[n].now1, es[n].now2, es[n].woken);
    forall k: nat | n + 1 <= k < m
      ensures Leaves(tr, k, t)
    {
      ShedStays(c, tr, es, k, t);
    }
    StaysTurnedDown(tr, n + 1, m, t);
    ShedNow(c, tr, es, m, t);
  }
}
