/** Close returns. Once the pool is closed, a measure over the queue, the dead lists and the program
    counters of the workers and the sweeper goes down with every step of theirs that does something,
    and no step of anyone makes it go up. */
module QueueClosing {
  import opened Sequences
  import opened QueueSections
  import opened QueueMachine
  import opened QueueInvariants
  import opened QueueSteps
  import opened QueueTheorems

  /** What a worker or the sweeper has left to do where it stands. */
  function Rank(pc: Pc): nat {
    match pc
    case Serve => 3
    case Pop => 2
    case Asleep => 2
    case Leaving => 1
    case Tick => 1
    case _ => 0
  }

  function Burden(me: G): nat {
    |me.dead| + Rank(me.pc)
  }

  ghost function WorkersBurden(gs: map<Gid, G>, n: nat): nat
    requires forall i: nat :: i < n ==> Wrk(i) in gs
  {
    if n == 0 then 0 else WorkersBurden(gs, n - 1) + Burden(gs[Wrk(n - 1)])
  }

  /** All that is left to do before the workers and the sweeper are gone: each queued task is taken
      off and handled, or swept and answered. */
  ghost function Work(c: Config, s: State): nat
    requires Cast(c, s.gs)
  {
    2 * |s.q| + WorkersBurden(s.gs, c.workers) + Burden(s.gs[Swp])
  }

  /** The steps of the workers and the sweeper that get something done; the sweeper's own sweep of a
      queue with nothing to sweep is the one that need not. */
  ghost predicate Progress(s: State, e: Event) {
    match e
    case TakeNext(_, _) => true
    case Handle(_, _) => true
    case Leave(_) => true
    case StopSweeper => true
    case Answer(g) => !g.Sub?
    case _ => false
  }

  lemma {:induction false} OneWorkerChanges(gs: map<Gid, G>, gs': map<Gid, G>, n: nat, i: nat, me: G)
    requires forall k: nat :: k < n ==> Wrk(k) in gs
    requires forall k: nat :: k < n ==> Wrk(k) in gs' && gs'[Wrk(k)] == if k == i then me else gs[Wrk(k)]
    ensures i < n ==> WorkersBurden(gs', n) == WorkersBurden(gs, n) - Burden(gs[Wrk(i)]) + Burden(me)
    ensures i >= n ==> WorkersBurden(gs', n) == WorkersBurden(gs, n)
  {
    if n > 0 {
      OneWorkerChanges(gs, gs', n - 1, i, me);
    }
  }

  /** In a closed pool nobody sleeps, so a step changes only the goroutine that takes it. */
  lemma OnlyOneChanges(s: State, a: Act)
    requires !SomeAsleep(s.gs) && (a.wake.One? ==> a.wake.g != a.g)
    ensures forall g :: g in s.gs && g != a.g ==> g in Perform(s, a).gs && Perform(s, a).gs[g] == s.gs[g]
    ensures a.g in Perform(s, a).gs && Perform(s, a).gs[a.g] == a.me
  {
    PerformGs(s, a);
    forall g | g in s.gs && g != a.g
      ensures Perform(s, a).gs[g] == s.gs[g]
    {
      assert s.gs[g].pc != Asleep;
      assert Woken(g, s.gs[g]) == s.gs[g];
    }
  }

  /** How a step changes the measure. */
  ghost function Weigh(s: State, g: Gid): nat {
    if g in s.gs && !g.Sub? then Burden(s.gs[g]) else 0
  }

  ghost function Gain(s: State, a: Act): int {
    2 * |a.q| - 2 * |s.q| + if a.g.Sub? then 0 else Burden(a.me) - Weigh(s, a.g)
  }

  lemma WorkChanges(c: Config, s: State, a: Act, s': State)
    requires Cast(c, s.gs) && Cast(c, s'.gs) && (a.g in s.gs || a.g.Sub?) && s'.q == a.q
    requires forall g :: g in s.gs && g != a.g ==> g in s'.gs && s'.gs[g] == s.gs[g]
    requires a.g in s'.gs && s'.gs[a.g] == a.me
    ensures Work(c, s') == Work(c, s) + Gain(s, a)
  {
    var i := if a.g.Wrk? then a.g.i else c.workers;
    assert forall k: nat :: k < c.workers ==> Wrk(k) in s.gs;
    assert a.g.Wrk? ==> i < c.workers;
    OneWorkerChanges(s.gs, s'.gs, c.workers, i, a.me);
  }

  // ------------------------------------------------------------------ what each step gains

  lemma PopGain(c: Config, s: State, i: nat, now: int)
    requires At(s, Wrk(i), Pop) && s.closed
    ensures Gain(s, PopAct(s, i, PopSection(c, s.q, s.closed, now), now)) < 0
  {
    SweepSizes(c, s.q, now);
  }

  lemma SweepGain(c: Config, s: State, g: Gid, now: int)
    requires g in s.gs && s.gs[g].dead == [] && (g.Sub? || (g == Swp && s.gs[g].pc == Tick))
    ensures Gain(s, SweepAct(c, s, g, s.gs[g], now)) <= 0
  {
    SweepSizes(c, s.q, now);
  }

  lemma SubmitGain(s: State, t: Task, me: G, out: SubmitOut, timer: Timer, woken: Gid, now: int)
    requires out.step == Closed
    ensures Gain(s, SubmitAct(s, t, me, out, timer, woken, now)) == 0
  {
  }

  /** The other steps leave the queue alone. */
  lemma QuietGain(c: Config, s: State, e: Event)
    requires Cast(c, s.gs) && Enabled(c, s, e) && !IsClose(e) && !IsQueue(e)
    ensures Gain(s, ActOf(c, s, e)) <= 0
    ensures Progress(s, e) ==> Gain(s, ActOf(c, s, e)) < 0
  {
  }

  lemma StepGain(c: Config, s: State, e: Event)
    requires Cast(c, s.gs) && Enabled(c, s, e) && !IsClose(e) && s.closed
    ensures Gain(s, ActOf(c, s, e)) <= 0
    ensures Progress(s, e) ==> Gain(s, ActOf(c, s, e)) < 0
  {
    match e
    case TakeNext(i, now) => PopGain(c, s, i, now);
    case Sweep(g, now) => SweepGain(c, s, g, now);
    case Enter(t, now1, now2, woken) =>
      SubmitGain(s, t, s.gs[Sub(t)], GateSection(c, s.q, s.closed, t, now1, now2), Armed(now1 + LeftAt(c, t, now1)), woken, now2);
    case Pass(t, now, woken) =>
      var timer := s.gs[Sub(t)].timer;
      SubmitGain(s, t, s.gs[Sub(t)], WaitSection(c, s.q, s.closed, timer == Fired, t, now), timer, woken, now);
    case _ => QuietGain(c, s, e);
  }

  /** With the pool closed, no step raises the measure and every step of progress lowers it. */
  lemma WorkGoesDown(c: Config, s: State, e: Event)
    requires c.Valid() && Inv(c, s) && Enabled(c, s, e) && s.closed
    ensures Cast(c, Next(c, s, e).gs) && Next(c, s, e).closed
    ensures Work(c, Next(c, s, e)) <= Work(c, s)
    ensures Progress(s, e) ==> Work(c, Next(c, s, e)) < Work(c, s)
  {
    CastStep(c, s, e);
    ClosedStep(c, s, e);
    EitherGoesDown(c, s, e);
  }

  lemma CastStep(c: Config, s: State, e: Event)
    requires c.Valid() && Inv(c, s) && Enabled(c, s, e)
    ensures Cast(c, Next(c, s, e).gs)
  {
    InvStep(c, s, e);
  }

  lemma EitherGoesDown(c: Config, s: State, e: Event)
    requires c.Valid() && Cast(c, s.gs) && Wakeful(c, s) && Stops(s) && Enabled(c, s, e) && s.closed
    requires Cast(c, Next(c, s, e).gs)
    ensures Work(c, Next(c, s, e)) <= Work(c, s)
    ensures Progress(s, e) ==> Work(c, Next(c, s, e)) < Work(c, s)
  {
    if IsClose(e) {
      ReturnKeepsWork(c, s, e);
    } else {
      NextGoesDown(c, s, e);
    }
  }

  lemma NextGoesDown(c: Config, s: State, e: Event)
    requires c.Valid() && Cast(c, s.gs) && Wakeful(c, s) && Stops(s) && Enabled(c, s, e) && !IsClose(e) && s.closed
    requires Cast(c, Next(c, s, e).gs)
    ensures Work(c, Next(c, s, e)) <= Work(c, s)
    ensures Progress(s, e) ==> Work(c, Next(c, s, e)) < Work(c, s)
  {
    var a := NextPerforms(c, s, e);
    StepGoesDown(c, s, e, a);
  }

  lemma NextPerforms(c: Config, s: State, e: Event) returns (a: Act)
    requires Enabled(c, s, e) && !IsClose(e)
    ensures a == ActOf(c, s, e) && Next(c, s, e) == Perform(s, a)
  {
    a := ActOf(c, s, e);
  }

  lemma StepGoesDown(c: Config, s: State, e: Event, a: Act)
    requires c.Valid() && Cast(c, s.gs) && Wakeful(c, s) && Stops(s) && Enabled(c, s, e) && !IsClose(e) && s.closed
    requires a == ActOf(c, s, e) && Cast(c, Perform(s, a).gs)
    ensures Work(c, Perform(s, a)) <= Work(c, s)
    ensures Progress(s, e) ==> Work(c, Perform(s, a)) < Work(c, s)
  {
    StepGain(c, s, e);
    QuietWake(c, s, e);
    StepChanges(c, s, a);
  }

  lemma StepChanges(c: Config, s: State, a: Act)
    requires Cast(c, s.gs) && Cast(c, Perform(s, a).gs) && (a.g in s.gs || a.g.Sub?)
    requires !SomeAsleep(s.gs) && (a.wake.One? ==> a.wake.g != a.g)
    ensures Work(c, Perform(s, a)) == Work(c, s) + Gain(s, a)
  {
    OnlyOneChanges(s, a);
    WorkChanges(c, s, a, Perform(s, a));
  }

  /** After Close nothing enters, so nobody signals. */
  lemma QuietWake(c: Config, s: State, e: Event)
    requires Cast(c, s.gs) && Wakeful(c, s) && c.Valid() && Enabled(c, s, e) && !IsClose(e) && s.closed && Stops(s)
    ensures !ActOf(c, s, e).wake.One? && (ActOf(c, s, e).g in s.gs || ActOf(c, s, e).g.Sub?)
  {
    CastLaw(c, s, e);
    if e.Enter? || e.Pass? {
      ClosedSubmit(c, s, e);
    } else {
      OthersDoNotSignal(c, s, e);
    }
  }

  lemma ClosedSubmit(c: Config, s: State, e: Event)
    requires Enabled(c, s, e) && (e.Enter? || e.Pass?) && s.closed
    ensures ActOf(c, s, e).wake == Nobody
  {
  }

  lemma OthersDoNotSignal(c: Config, s: State, e: Event)
    requires Enabled(c, s, e) && !IsClose(e) && !e.Enter? && !e.Pass?
    ensures !ActOf(c, s, e).wake.One?
  {
  }

  lemma ReturnKeepsWork(c: Config, s: State, e: Event)
    requires Cast(c, s.gs) && Stops(s) && Enabled(c, s, e) && IsClose(e) && s.closed
    ensures Cast(c, Next(c, s, e).gs) && Work(c, Next(c, s, e)) == Work(c, s)
  {
  }

  // ------------------------------------------------------------------ Close returns

  ghost function ProgressIn(tr: seq<State>, es: seq<Event>, n: nat, m: nat): nat
    requires n <= m <= |es| < |tr|
  {
    if n == m then 0 else ProgressIn(tr, es, n, m - 1) + if Progress(tr[m - 1], es[m - 1]) then 1 else 0
  }

  /** Step k does not add work, and takes some away if it is progress. */
  ghost predicate Down(c: Config, tr: seq<State>, es: seq<Event>, k: nat)
    requires k < |es| < |tr|
  {
    && Cast(c, tr[k].gs) && Cast(c, tr[k + 1].gs)
    && Work(c, tr[k + 1]) + (if Progress(tr[k], es[k]) then 1 else 0) <= Work(c, tr[k])
  }

  lemma RunGoesDown(c: Config, tr: seq<State>, es: seq<Event>, n: nat, k: nat)
    requires c.Valid() && IsRun(c, tr, es) && n <= k < |es| && tr[n].closed
    ensures Down(c, tr, es, k)
  {
    InvRun(c, tr, es, k);
    NoEntryAfterClose(c, tr, es, n, k);
    WorkGoesDown(c, tr[k], es[k]);
  }

  lemma {:induction false} DownAndDown(c: Config, tr: seq<State>, es: seq<Event>, n: nat, m: nat)
    requires n <= m <= |es| < |tr| && Cast(c, tr[n].gs)
    requires forall k: nat :: n <= k < m ==> Down(c, tr, es, k)
    ensures Cast(c, tr[m].gs) && Work(c, tr[m]) + ProgressIn(tr, es, n, m) <= Work(c, tr[n])
  {
    if n < m {
      DownAndDown(c, tr, es, n, m - 1);
      assert Down(c, tr, es, m - 1);
    }
  }

  lemma CastRun(c: Config, tr: seq<State>, es: seq<Event>, n: nat)
    requires c.Valid() && IsRun(c, tr, es) && n < |tr|
    ensures Cast(c, tr[n].gs)
  {
    InvRun(c, tr, es, n);
  }

  /** The steps of progress after Close are bounded by the work there was. */
  lemma ProgressIsBounded(c: Config, tr: seq<State>, es: seq<Event>, n: nat, m: nat)
    requires c.Valid() && IsRun(c, tr, es) && n <= m < |tr| && tr[n].closed
    ensures Cast(c, tr[n].gs) && Cast(c, tr[m].gs) && tr[m].closed
    ensures Work(c, tr[m]) + ProgressIn(tr, es, n, m) <= Work(c, tr[n])
  {
    CastRun(c, tr, es, n);
    NoEntryAfterClose(c, tr, es, n, m);
    forall k: nat | n <= k < m
      ensures Down(c, tr, es, k)
    {
      RunGoesDown(c, tr, es, n, k);
    }
    DownAndDown(c, tr, es, n, m);
  }

  /** As long as a worker or the sweeper has not gone, a step of progress is enabled. */
  lemma ProgressIsPossible(c: Config, s: State, g: Gid) returns (e: Event)
    requires Inv(c, s) && s.closed && g in s.gs && !g.Sub? && s.gs[g].pc != Gone
    ensures Enabled(c, s, e) && Progress(s, e)
  {
    var me := s.gs[g];
    assert ShapeOf(g, me);
    assert me.pc != Asleep;
    if me.dead != [] {
      e := Answer(g);
    } else if g == Swp {
      e := StopSweeper;
    } else {
      e := if me.pc == Pop then TakeNext(g.i, s.clock) else if me.pc == Serve then Handle(g.i, s.clock) else Leave(g.i);
    }
  }

  lemma {:induction false} NoWorkMeansGone(gs: map<Gid, G>, n: nat, i: nat)
    requires forall k: nat :: k < n ==> Wrk(k) in gs
    requires i < n && WorkersBurden(gs, n) == 0
    ensures Burden(gs[Wrk(i)]) == 0
  {
    if i < n - 1 {
      NoWorkMeansGone(gs, n - 1, i);
    }
  }

  /** No work left is everyone gone. */
  lemma WorkDone(c: Config, s: State)
    requires Inv(c, s) && s.closed && Work(c, s) == 0
    ensures AllGone(s) && s.q == []
  {
    forall g | g in s.gs && !g.Sub?
      ensures s.gs[g].pc == Gone
    {
      assert ShapeOf(g, s.gs[g]);
      if g.Wrk? {
        NoWorkMeansGone(s.gs, c.workers, g.i);
      }
    }
  }

  /** Close returns: from the moment the pool is closed, as long as a worker or the sweeper is left
      one of them can make progress; after at most `Work` steps of progress all are gone, whatever
      else happens in between; and then Close can return, or has. */
  lemma CloseReturns(c: Config, tr: seq<State>, es: seq<Event>, n: nat, m: nat)
    requires c.Valid() && IsRun(c, tr, es) && n <= m < |tr| && tr[n].closed
    ensures Cast(c, tr[n].gs) && ProgressIn(tr, es, n, m) <= Work(c, tr[n])
    ensures AllGone(tr[m]) || exists e :: Enabled(c, tr[m], e) && Progress(tr[m], e)
    ensures ProgressIn(tr, es, n, m) == Work(c, tr[n]) ==> AllGone(tr[m])
    ensures AllGone(tr[m]) ==> tr[m].closer == Returned || Enabled(c, tr[m], CloseReturn)
  {
    ProgressIsBounded(c, tr, es, n, m);
    InvRun(c, tr, es, m);
    CanGoOn(c, tr[m]);
    if ProgressIn(tr, es, n, m) == Work(c, tr[n]) {
      WorkDone(c, tr[m]);
    }
  }

  lemma CanGoOn(c: Config, s: State)
    requires Inv(c, s) && s.closed
    ensures AllGone(s) || exists e :: Enabled(c, s, e) && Progress(s, e)
    ensures AllGone(s) ==> s.closer == Returned || Enabled(c, s, CloseReturn)
  {
    if !AllGone(s) {
      var g :| g in s.gs && !g.Sub? && s.gs[g].pc != Gone;
      var e := ProgressIsPossible(c, s, g);
    }
  }
}
