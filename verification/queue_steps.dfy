/** Every step of the worker pool is lawful, so every reachable state satisfies the invariants. */
module QueueSteps {
  import opened Sequences
  import opened QueueSections
  import opened QueueMachine
  import opened QueueInvariants

  ghost predicate Lawful(c: Config, s: State, a: Act) {
    LawfulCast(c, s, a) && LawfulStop(s, a) && LawfulWake(c, s, a) && LawfulMove(s, a) && LawfulTime(c, s, a)
  }

  lemma SweepSizes(c: Config, q: seq<Task>, now: int)
    ensures |Kept(c, q, now)| + |Swept(c, q, now)| == |q|
    ensures Swept(c, q, now) == [] ==> Kept(c, q, now) == q
  {
    SweepOrder(c, q, now);
    SweepPartitions(c, q, now);
    assert |multiset(Kept(c, q, now))| + |multiset(Swept(c, q, now))| == |multiset(q)|;
    if Swept(c, q, now) == [] {
      SubsequenceLength(Kept(c, q, now), q);
    }
  }

  ghost predicate IsClose(e: Event) {
    e.CloseStop? || e.CloseLock? || e.CloseReturn?
  }

  lemma CastLawSubmit(s: State, t: Task, me: G, out: SubmitOut, timer: Timer, woken: Gid, now: int)
    requires ShapeOf(Sub(t), me) && (me.pc == Gate || me.pc == Retry) && me.dead == [] && timer != NoTimer
    ensures SubmitAct(s, t, me, out, timer, woken, now).g == Sub(t)
    ensures ShapeOf(Sub(t), SubmitAct(s, t, me, out, timer, woken, now).me)
  {
  }

  lemma CastLawPop(c: Config, s: State, i: nat, now: int)
    ensures PopAct(s, i, PopSection(c, s.q, s.closed, now), now).g == Wrk(i)
    ensures ShapeOf(Wrk(i), PopAct(s, i, PopSection(c, s.q, s.closed, now), now).me)
  {
  }

  lemma CastLawQuiet(c: Config, s: State, e: Event)
    requires Cast(c, s.gs) && Enabled(c, s, e) && !IsClose(e) && !e.Enter? && !e.Pass? && !e.TakeNext?
    ensures LawfulCast(c, s, ActOf(c, s, e))
  {
  }

  lemma CastLawEnter(c: Config, s: State, t: Task, now1: int, now2: int, woken: Gid)
    requires Cast(c, s.gs) && At(s, Sub(t), Gate)
    ensures LawfulCast(c, s, EnterAct(c, s, t, now1, now2, woken))
  {
    CastLawSubmit(s, t, s.gs[Sub(t)], GateSection(c, s.q, s.closed, t, now1, now2), Armed(now1 + LeftAt(c, t, now1)), woken, now2);
  }

  lemma CastLawPass(c: Config, s: State, t: Task, now: int, woken: Gid)
    requires Cast(c, s.gs) && At(s, Sub(t), Retry)
    ensures LawfulCast(c, s, PassAct(c, s, t, now, woken))
  {
    var me := s.gs[Sub(t)];
    assert ShapeOf(Sub(t), me);
    CastLawSubmit(s, t, me, WaitSection(c, s.q, s.closed, me.timer == Fired, t, now), me.timer, woken, now);
  }

  lemma CastLawEnters(c: Config, s: State, e: Event)
    requires Cast(c, s.gs) && Enabled(c, s, e) && e.Enter?
    ensures LawfulCast(c, s, ActOf(c, s, e))
  {
    CastLawEnter(c, s, e.t, e.now1, e.now2, e.woken);
  }

  lemma CastLawPasses(c: Config, s: State, e: Event)
    requires Cast(c, s.gs) && Enabled(c, s, e) && e.Pass?
    ensures LawfulCast(c, s, ActOf(c, s, e))
  {
    CastLawPass(c, s, e.t, e.now, e.woken);
  }

  lemma CastLaw(c: Config, s: State, e: Event)
    requires Cast(c, s.gs) && Enabled(c, s, e) && !IsClose(e)
    ensures LawfulCast(c, s, ActOf(c, s, e))
  {
    if e.Enter? {
      CastLawEnters(c, s, e);
    } else if e.Pass? {
      CastLawPasses(c, s, e);
    } else if e.TakeNext? {
      CastLawPop(c, s, e.i, e.now);
    } else {
      CastLawQuiet(c, s, e);
    }
  }

  /** The steps that use the queue. */
  ghost predicate IsQueue(e: Event) {
    e.Sweep? || e.Enter? || e.Pass? || e.TakeNext?
  }

  lemma StopLawQuiet(c: Config, s: State, e: Event)
    requires Cast(c, s.gs) && Stops(s) && Enabled(c, s, e) && !IsClose(e) && !IsQueue(e)
    ensures LawfulStop(s, ActOf(c, s, e))
  {
  }

  lemma StopLawSubmit(c: Config, s: State, t: Task, out: SubmitOut, timer: Timer, woken: Gid, now: int)
    requires Stops(s) && Sub(t) in s.gs
    requires s.closed ==> out.step == Closed
    ensures LawfulStop(s, SubmitAct(s, t, s.gs[Sub(t)], out, timer, woken, now))
  {
  }

  lemma StopLawEnter(c: Config, s: State, t: Task, now1: int, now2: int, woken: Gid)
    requires Stops(s) && Sub(t) in s.gs
    ensures LawfulStop(s, EnterAct(c, s, t, now1, now2, woken))
  {
    StopLawSubmit(c, s, t, GateSection(c, s.q, s.closed, t, now1, now2), Armed(now1 + LeftAt(c, t, now1)), woken, now2);
  }

  lemma StopLawPass(c: Config, s: State, t: Task, now: int, woken: Gid)
    requires Stops(s) && Sub(t) in s.gs
    ensures LawfulStop(s, PassAct(c, s, t, now, woken))
  {
    var timer := s.gs[Sub(t)].timer;
    StopLawSubmit(c, s, t, WaitSection(c, s.q, s.closed, timer == Fired, t, now), timer, woken, now);
  }

  lemma StopLawPop(c: Config, s: State, i: nat, now: int)
    requires Stops(s) && At(s, Wrk(i), Pop)
    ensures LawfulStop(s, PopAct(s, i, PopSection(c, s.q, s.closed, now), now))
  {
    SweepSizes(c, s.q, now);
  }

  lemma StopLawSweep(c: Config, s: State, g: Gid, now: int)
    requires Stops(s) && (g.Sub? || g == Swp) && g in s.gs && s.gs[g].pc != Gone
    ensures LawfulStop(s, SweepAct(c, s, g, s.gs[g], now))
  {
    SweepSizes(c, s.q, now);
  }

  lemma StopLaw(c: Config, s: State, e: Event)
    requires Cast(c, s.gs) && Stops(s) && Enabled(c, s, e) && !IsClose(e)
    ensures LawfulStop(s, ActOf(c, s, e))
  {
    match e
    case Enter(t, now1, now2, woken) => StopLawEnter(c, s, t, now1, now2, woken);
    case Pass(t, now, woken) => StopLawPass(c, s, t, now, woken);
    case TakeNext(i, now) => StopLawPop(c, s, i, now);
    case Sweep(g, now) => StopLawSweep(c, s, g, now);
    case _ => StopLawQuiet(c, s, e);
  }

  lemma WakeLawQuiet(c: Config, s: State, e: Event)
    requires c.Valid() && Cast(c, s.gs) && Wakeful(c, s) && Enabled(c, s, e) && !IsClose(e) && !IsQueue(e)
    ensures LawfulWake(c, s, ActOf(c, s, e))
  {
  }

  /** What waking needs of a submitter's section. */
  ghost predicate WakeFit(c: Config, q: seq<Task>, closed: bool, t: Task, out: SubmitOut) {
    match out.step
    case Entered => out.q == q + [t] && |q| < c.depth && out.cond == Signal
    case Waits => !closed && |q| >= c.depth
    case Retries => |out.q| <= |q| && out.cond == Broadcast
    case _ => true
  }

  lemma WaitFits(c: Config, q: seq<Task>, closed: bool, timedOut: bool, t: Task, now: int)
    ensures var out := WaitSection(c, q, closed, timedOut, t, now);
      WakeFit(c, q, closed, t, out) && (out.step.Waits? ==> !timedOut)
  {
    SweepSizes(c, q, now);
  }

  lemma GateFits(c: Config, q: seq<Task>, closed: bool, t: Task, now1: int, now2: int)
    ensures WakeFit(c, q, closed, t, GateSection(c, q, closed, t, now1, now2))
  {
    WaitFits(c, q, false, false, t, now2);
  }

  lemma WakeLawSubmit(c: Config, s: State, t: Task, out: SubmitOut, timer: Timer, woken: Gid, now: int)
    requires Cast(c, s.gs) && Wakeful(c, s) && MayWake(s.gs, woken) && (At(s, Sub(t), Gate) || At(s, Sub(t), Retry))
    requires WakeFit(c, s.q, s.closed, t, out) && (out.step.Waits? ==> timer.Armed?)
    ensures LawfulWake(c, s, SubmitAct(s, t, s.gs[Sub(t)], out, timer, woken, now))
  {
  }

  lemma WakeLawPop(c: Config, s: State, i: nat, now: int)
    requires Cast(c, s.gs) && Wakeful(c, s) && At(s, Wrk(i), Pop)
    ensures LawfulWake(c, s, PopAct(s, i, PopSection(c, s.q, s.closed, now), now))
  {
    SweepSizes(c, s.q, now);
  }

  lemma WakeLawSweep(c: Config, s: State, g: Gid, now: int)
    requires Cast(c, s.gs) && Wakeful(c, s) && (At(s, g, Collect) || (g == Swp && At(s, g, Tick)))
    ensures LawfulWake(c, s, SweepAct(c, s, g, s.gs[g], now))
  {
    SweepSizes(c, s.q, now);
  }

  lemma WakeLawEnter(c: Config, s: State, t: Task, now1: int, now2: int, woken: Gid)
    requires Cast(c, s.gs) && Wakeful(c, s) && MayWake(s.gs, woken) && At(s, Sub(t), Gate)
    ensures LawfulWake(c, s, EnterAct(c, s, t, now1, now2, woken))
  {
    GateFits(c, s.q, s.closed, t, now1, now2);
    WakeLawSubmit(c, s, t, GateSection(c, s.q, s.closed, t, now1, now2), Armed(now1 + LeftAt(c, t, now1)), woken, now2);
  }

  lemma WakeLawPass(c: Config, s: State, t: Task, now: int, woken: Gid)
    requires Cast(c, s.gs) && Wakeful(c, s) && MayWake(s.gs, woken) && At(s, Sub(t), Retry)
    ensures LawfulWake(c, s, PassAct(c, s, t, now, woken))
  {
    var timer := s.gs[Sub(t)].timer;
    WaitFits(c, s.q, s.closed, timer == Fired, t, now);
    assert ShapeOf(Sub(t), s.gs[Sub(t)]);
    WakeLawSubmit(c, s, t, WaitSection(c, s.q, s.closed, timer == Fired, t, now), timer, woken, now);
  }

  lemma WakeLawQueue(c: Config, s: State, e: Event)
    requires Cast(c, s.gs) && Wakeful(c, s) && Enabled(c, s, e) && IsQueue(e)
    ensures LawfulWake(c, s, ActOf(c, s, e))
  {
    match e
    case Enter(t, now1, now2, woken) => WakeLawEnter(c, s, t, now1, now2, woken);
    case Pass(t, now, woken) => WakeLawPass(c, s, t, now, woken);
    case TakeNext(i, now) => WakeLawPop(c, s, i, now);
    case Sweep(g, now) => WakeLawSweep(c, s, g, now);
  }

  lemma WakeLaw(c: Config, s: State, e: Event)
    requires c.Valid() && Cast(c, s.gs) && Wakeful(c, s) && Enabled(c, s, e) && !IsClose(e)
    ensures LawfulWake(c, s, ActOf(c, s, e))
  {
    if IsQueue(e) {
      WakeLawQueue(c, s, e);
    } else {
      WakeLawQuiet(c, s, e);
    }
  }

  lemma TimeLawQuiet(c: Config, s: State, e: Event)
    requires Cast(c, s.gs) && Timely(c, s) && Enabled(c, s, e) && !IsClose(e) && !IsQueue(e)
    ensures LawfulTime(c, s, ActOf(c, s, e))
  {
  }

  lemma TimeLawSubmit(c: Config, s: State, t: Task, out: SubmitOut, timer: Timer, woken: Gid, now: int)
    requires s.clock <= now && Sub(t) in s.gs && !s.gs[Sub(t)].pc.Expiring? && s.gs[Sub(t)].pc != Shedding
    requires TimerOk(c, s.(clock := now), t, timer) && TimerOk(c, s, t, s.gs[Sub(t)].timer)
    requires match out.step
      case Closed => s.closed
      case TimeUp => timer == Fired
      case NoTime(_) => Spent(c, t, now)
      case TurnedAway => c.full == Drop
      case Retries => forall d :: d in out.dead ==> Spent(c, d, now)
      case _ => true
    ensures LawfulTime(c, s, SubmitAct(s, t, s.gs[Sub(t)], out, timer, woken, now))
  {
  }

  lemma TimeLawPop(c: Config, s: State, i: nat, now: int)
    requires s.clock <= now
    ensures LawfulTime(c, s, PopAct(s, i, PopSection(c, s.q, s.closed, now), now))
  {
    SweepMembers(c, s.q, now);
  }

  lemma TimeLawSweep(c: Config, s: State, g: Gid, now: int)
    requires s.clock <= now && Timely(c, s) && g in s.gs && !s.gs[g].pc.Expiring? && s.gs[g].pc != Shedding
    ensures LawfulTime(c, s, SweepAct(c, s, g, s.gs[g], now))
  {
    SweepMembers(c, s.q, now);
    if g.Sub? {
      assert SubmitterTimely(c, s, g.t, s.gs[Sub(g.t)]);
    }
  }

  lemma TimeLawEnter(c: Config, s: State, t: Task, now1: int, now2: int, woken: Gid)
    requires Timely(c, s) && s.clock <= now1 <= now2 && At(s, Sub(t), Gate)
    ensures LawfulTime(c, s, EnterAct(c, s, t, now1, now2, woken))
  {
    SweepMembers(c, s.q, now2);
    assert SubmitterTimely(c, s, t, s.gs[Sub(t)]);
    TimeLawSubmit(c, s, t, GateSection(c, s.q, s.closed, t, now1, now2), Armed(now1 + LeftAt(c, t, now1)), woken, now2);
  }

  lemma TimeLawPass(c: Config, s: State, t: Task, now: int, woken: Gid)
    requires Timely(c, s) && s.clock <= now && At(s, Sub(t), Retry)
    ensures LawfulTime(c, s, PassAct(c, s, t, now, woken))
  {
    SweepMembers(c, s.q, now);
    var timer := s.gs[Sub(t)].timer;
    assert SubmitterTimely(c, s, t, s.gs[Sub(t)]);
    TimeLawSubmit(c, s, t, WaitSection(c, s.q, s.closed, timer == Fired, t, now), timer, woken, now);
  }

  lemma TimeLawQueue(c: Config, s: State, e: Event)
    requires Timely(c, s) && Enabled(c, s, e) && IsQueue(e)
    ensures LawfulTime(c, s, ActOf(c, s, e))
  {
    match e
    case Enter(t, now1, now2, woken) => TimeLawEnter(c, s, t, now1, now2, woken);
    case Pass(t, now, woken) => TimeLawPass(c, s, t, now, woken);
    case TakeNext(i, now) => TimeLawPop(c, s, i, now);
    case Sweep(g, now) => TimeLawSweep(c, s, g, now);
  }

  lemma TimeLaw(c: Config, s: State, e: Event)
    requires Cast(c, s.gs) && Timely(c, s) && Enabled(c, s, e) && !IsClose(e)
    ensures LawfulTime(c, s, ActOf(c, s, e))
  {
    if IsQueue(e) {
      TimeLawQueue(c, s, e);
    } else {
      TimeLawQuiet(c, s, e);
    }
  }

  /** A step that leaves the queue alone and moves at most the goroutine's own task. */
  lemma QuietMove(s: State, a: Act)
    requires Placed(s)
    requires a.q == s.q && a.swept == a.entered == a.head == [] && a.calls == []
    requires a.me.dead == Before(s, a.g).dead
    requires if a.g in s.gs then a.arrived == [] && a.me.hand == s.gs[a.g].hand
             else a.g.Sub? && a.arrived == a.me.hand == [a.g.t]
    ensures LawfulMove(s, a)
  {
    SubsequenceRefl(s.q);
    assert a.head + a.q == s.q && s.q + a.entered == s.q;
    assert Distinct(Before(s, a.g).dead);
  }

  /** A step that sweeps the queue into the empty hands of a goroutine, and may take its head. */
  lemma SweepMove(c: Config, s: State, a: Act, now: int)
    requires Placed(s) && a.g in s.gs && s.gs[a.g].dead == []
    requires a.swept == a.me.dead == Swept(c, s.q, now) && a.head + a.q == Kept(c, s.q, now)
    requires a.entered == a.arrived == [] && a.calls == []
    requires if a.head == [] then a.me.hand == s.gs[a.g].hand
             else |a.head| == 1 && a.g.Wrk? && s.gs[a.g].hand == [] && a.me.hand == a.head
    ensures LawfulMove(s, a)
  {
    SweepMembers(c, s.q, now);
    SweepDistinct(c, s.q, now);
    SweepOrder(c, s.q, now);
    assert s.q + a.entered == s.q;
    DistinctTail(a.head, a.q);
    assert forall t :: t in a.head + a.q <==> t in a.head || t in a.q;
  }

  lemma DistinctTail(a: seq<Task>, b: seq<Task>)
    requires Distinct(a + b)
    ensures Distinct(b) && forall t :: t in a ==> t !in b
  {
    assert forall i :: 0 <= i < |b| ==> b[i] == (a + b)[|a| + i];
    assert forall i :: 0 <= i < |a| ==> a[i] == (a + b)[i];
  }

  /** A step that answers one task the goroutine holds: the first dead one, or its hand. */
  lemma CallMove(s: State, a: Act)
    requires Placed(s) && a.g in s.gs && |a.calls| == 1
    requires a.q == s.q && a.swept == a.entered == a.head == a.arrived == []
    requires var was := s.gs[a.g]; var t := a.calls[0].task;
      || (was.dead != [] && t == was.dead[0] && a.me.dead == was.dead[1..] && a.me.hand == was.hand)
      || (was.hand == [t] && a.me.dead == was.dead && a.me.hand == [])
    ensures LawfulMove(s, a)
  {
    var was, t := s.gs[a.g], a.calls[0].task;
    assert Tasks(a.calls) == [t];
    assert t in was.dead || t in was.hand;
    assert Is(s, t, Dead(a.g)) <==> t in was.dead;
    assert Is(s, t, Hand(a.g)) <==> t in was.hand;
    assert Distinct(was.dead);
    if t in was.dead {
      assert was.dead == [t] + was.dead[1..];
    }
    SubsequenceRefl(s.q);
    assert a.head + a.q == s.q && s.q + a.entered == s.q;
  }

  /** A step that puts the submitter's own task into the queue. */
  lemma EnterMove(s: State, a: Act, t: Task)
    requires Placed(s) && a.g == Sub(t) && a.g in s.gs && s.gs[a.g].hand == [t]
    requires a.q == s.q + [t] && a.entered == [t] && a.swept == a.head == a.arrived == [] && a.calls == []
    requires a.me.dead == s.gs[a.g].dead && a.me.hand == []
    ensures LawfulMove(s, a)
  {
    assert Is(s, t, Hand(a.g)) && !Is(s, t, Queue);
    assert Distinct(s.gs[a.g].dead);
    SubsequenceRefl(a.q);
    assert a.head + a.q == a.q;
  }

  /** What moving tasks needs of a submitter's section. */
  ghost predicate MoveFit(c: Config, q: seq<Task>, t: Task, out: SubmitOut, now: int) {
    match out.step
    case Entered => out.q == q + [t]
    case Retries => out.q == Kept(c, q, now) && out.dead == Swept(c, q, now)
    case _ => true
  }

  lemma WaitMoves(c: Config, q: seq<Task>, closed: bool, timedOut: bool, t: Task, now: int)
    ensures MoveFit(c, q, t, WaitSection(c, q, closed, timedOut, t, now), now)
  {
  }

  lemma GateMoves(c: Config, q: seq<Task>, closed: bool, t: Task, now1: int, now2: int)
    ensures MoveFit(c, q, t, GateSection(c, q, closed, t, now1, now2), now2)
  {
    WaitMoves(c, q, false, false, t, now2);
  }

  lemma SubmitMove(c: Config, s: State, t: Task, out: SubmitOut, timer: Timer, woken: Gid, now: int)
    requires Cast(c, s.gs) && Placed(s)
    requires At(s, Sub(t), Gate) || At(s, Sub(t), Retry)
    requires MoveFit(c, s.q, t, out, now)
    ensures LawfulMove(s, SubmitAct(s, t, s.gs[Sub(t)], out, timer, woken, now))
  {
    var a := SubmitAct(s, t, s.gs[Sub(t)], out, timer, woken, now);
    match out.step
    case Entered => EnterMove(s, a, t);
    case Retries => assert a.head + a.q == a.q; SweepMove(c, s, a, now);
    case _ => QuietMove(s, a);
  }

  lemma MoveLawCall(c: Config, s: State, e: Event)
    requires Cast(c, s.gs) && Placed(s) && Enabled(c, s, e) && (e.Answer? || e.AnswerOwn? || e.Handle?)
    ensures LawfulMove(s, ActOf(c, s, e))
  {
    CallMove(s, ActOf(c, s, e));
  }

  lemma MoveLawQuiet(c: Config, s: State, e: Event)
    requires Cast(c, s.gs) && Placed(s) && Enabled(c, s, e) && (e.Arrive? || e.Fire? || e.Leave? || e.StopSweeper?)
    ensures LawfulMove(s, ActOf(c, s, e))
  {
    QuietMove(s, ActOf(c, s, e));
  }

  lemma PopShape(c: Config, s: State, i: nat, now: int)
    ensures var a := PopAct(s, i, PopSection(c, s.q, s.closed, now), now);
      && a.g == Wrk(i) && a.swept == a.me.dead == Swept(c, s.q, now) && a.head + a.q == Kept(c, s.q, now)
      && a.entered == a.arrived == [] && a.calls == [] && |a.head| <= 1 && a.me.hand == a.head
  {
    SweepSizes(c, s.q, now);
  }

  lemma MoveLawPop(c: Config, s: State, i: nat, now: int)
    requires Cast(c, s.gs) && Placed(s) && At(s, Wrk(i), Pop)
    ensures LawfulMove(s, PopAct(s, i, PopSection(c, s.q, s.closed, now), now))
  {
    PopShape(c, s, i, now);
    assert ShapeOf(Wrk(i), s.gs[Wrk(i)]);
    SweepMove(c, s, PopAct(s, i, PopSection(c, s.q, s.closed, now), now), now);
  }

  lemma MoveLawSweep(c: Config, s: State, g: Gid, now: int)
    requires Placed(s) && g in s.gs && s.gs[g].dead == []
    ensures LawfulMove(s, SweepAct(c, s, g, s.gs[g], now))
  {
    var a := SweepAct(c, s, g, s.gs[g], now);
    assert a.head + a.q == a.q;
    SweepMove(c, s, a, now);
  }

  lemma MoveLawEnter(c: Config, s: State, t: Task, now1: int, now2: int, woken: Gid)
    requires Cast(c, s.gs) && Placed(s) && At(s, Sub(t), Gate)
    ensures LawfulMove(s, EnterAct(c, s, t, now1, now2, woken))
  {
    GateMoves(c, s.q, s.closed, t, now1, now2);
    SubmitMove(c, s, t, GateSection(c, s.q, s.closed, t, now1, now2), Armed(now1 + LeftAt(c, t, now1)), woken, now2);
  }

  lemma MoveLawPass(c: Config, s: State, t: Task, now: int, woken: Gid)
    requires Cast(c, s.gs) && Placed(s) && At(s, Sub(t), Retry)
    ensures LawfulMove(s, PassAct(c, s, t, now, woken))
  {
    var timer := s.gs[Sub(t)].timer;
    WaitMoves(c, s.q, s.closed, timer == Fired, t, now);
    SubmitMove(c, s, t, WaitSection(c, s.q, s.closed, timer == Fired, t, now), timer, woken, now);
  }

  lemma MoveLawEnters(c: Config, s: State, e: Event)
    requires Cast(c, s.gs) && Placed(s) && Enabled(c, s, e) && e.Enter?
    ensures LawfulMove(s, ActOf(c, s, e))
  {
    MoveLawEnter(c, s, e.t, e.now1, e.now2, e.woken);
  }

  lemma MoveLawPasses(c: Config, s: State, e: Event)
    requires Cast(c, s.gs) && Placed(s) && Enabled(c, s, e) && e.Pass?
    ensures LawfulMove(s, ActOf(c, s, e))
  {
    MoveLawPass(c, s, e.t, e.now, e.woken);
  }

  lemma MoveLawTakes(c: Config, s: State, e: Event)
    requires Cast(c, s.gs) && Placed(s) && Enabled(c, s, e) && e.TakeNext?
    ensures LawfulMove(s, ActOf(c, s, e))
  {
    MoveLawPop(c, s, e.i, e.now);
  }

  lemma MoveLawSweeps(c: Config, s: State, e: Event)
    requires Cast(c, s.gs) && Placed(s) && Enabled(c, s, e) && e.Sweep?
    ensures LawfulMove(s, ActOf(c, s, e))
  {
    MoveLawSweep(c, s, e.g, e.now);
  }

  lemma MoveLaw(c: Config, s: State, e: Event)
    requires Cast(c, s.gs) && Placed(s) && Enabled(c, s, e) && !IsClose(e)
    ensures LawfulMove(s, ActOf(c, s, e))
  {
    if e.Enter? {
      MoveLawEnters(c, s, e);
    } else if e.Pass? {
      MoveLawPasses(c, s, e);
    } else if e.TakeNext? {
      MoveLawTakes(c, s, e);
    } else if e.Sweep? {
      MoveLawSweeps(c, s, e);
    } else if e.Answer? || e.AnswerOwn? || e.Handle? {
      MoveLawCall(c, s, e);
    } else {
      MoveLawQuiet(c, s, e);
    }
  }

  lemma PerformKept(c: Config, s: State, a: Act)
    requires Inv(c, s) && Lawful(c, s, a)
    ensures Inv(c, Perform(s, a))
  {
    var s' := Perform(s, a);
    PerformGs(s, a);
    PerformPlace(s, a);
    CastKept(c, s.gs, a, s'.gs);
    StopsKept(s, a, s');
    WakefulKept(c, s, a, s');
    PlacedKept(c, s, a, s');
    TalliedKept(s, a, s');
    InOrderKept(s, a, s');
    AdmittedKept(s, a, s');
    TimelyKept(c, s, a, s');
  }

  lemma ClosePlaced(c: Config, s: State, e: Event)
    requires Placed(s) && Enabled(c, s, e) && IsClose(e)
    ensures Placed(Next(c, s, e))
  {
    var s' := Next(c, s, e);
    forall t, p
      ensures Is(s', t, p) <==> t in s'.place && s'.place[t] == p
    {
      assert Is(s', t, p) <==> Is(s, t, p);
    }
  }

  lemma CloseTimely(c: Config, s: State, e: Event)
    requires Timely(c, s) && Enabled(c, s, e) && IsClose(e)
    ensures Timely(c, Next(c, s, e))
  {
    var s' := Next(c, s, e);
    forall i | 0 <= i < |s'.calls|
      ensures Fair(c, s', s'.calls[i])
    {
      assert Fair(c, s, s.calls[i]);
    }
  }

  lemma CloseWakes(c: Config, s: State, e: Event)
    requires c.Valid() && Cast(c, s.gs) && Stops(s) && Wakeful(c, s) && Enabled(c, s, e) && IsClose(e)
    ensures var s' := Next(c, s, e); Cast(c, s'.gs) && Stops(s') && Wakeful(c, s')
  {
    match e
    case CloseLock => LockWakes(c, s);
    case _ =>
  }

  lemma LockWakes(c: Config, s: State)
    requires Cast(c, s.gs) && Stops(s) && Wakeful(c, s) && s.closer == Stopping
    ensures var s' := Next(c, s, CloseLock); Cast(c, s'.gs) && Stops(s') && Wakeful(c, s')
  {
    CastWoken(c, s.gs);
    StopsWoken(s);
  }

  lemma StopsWoken(s: State)
    requires Stops(s) && s.closer == Stopping
    ensures Stops(s.(closer := Waiting, closed := true, gs := WakeAll(s.gs)))
  {
  }

  lemma CastWoken(c: Config, gs: map<Gid, G>)
    requires Cast(c, gs)
    ensures Cast(c, WakeAll(gs)) && !SomeAsleep(WakeAll(gs))
  {
  }

  lemma CloseKept(c: Config, s: State, e: Event)
    requires c.Valid() && Inv(c, s) && Enabled(c, s, e) && IsClose(e)
    ensures Inv(c, Next(c, s, e))
  {
    ClosePlaced(c, s, e);
    CloseTimely(c, s, e);
    CloseWakes(c, s, e);
  }

  lemma InvStep(c: Config, s: State, e: Event)
    requires c.Valid() && Inv(c, s) && Enabled(c, s, e)
    ensures Inv(c, Next(c, s, e))
  {
    if IsClose(e) {
      CloseKept(c, s, e);
    } else {
      CastLaw(c, s, e);
      StopLaw(c, s, e);
      WakeLaw(c, s, e);
      TimeLaw(c, s, e);
      MoveLaw(c, s, e);
      PerformKept(c, s, ActOf(c, s, e));
    }
  }

  lemma InvInit(c: Config, s: State)
    requires c.Valid() && Init(c, s)
    ensures Inv(c, s)
  {
    InitCast(c, s);
    InitWakes(c, s);
    InitPlaced(c, s);
  }

  lemma InitCast(c: Config, s: State)
    requires Init(c, s)
    ensures Cast(c, s.gs) && Stops(s)
  {
  }

  lemma InitWakes(c: Config, s: State)
    requires c.Valid() && Init(c, s)
    ensures Wakeful(c, s) && Ordered(s) && Timely(c, s)
  {
  }

  lemma InitPlaced(c: Config, s: State)
    requires Init(c, s)
    ensures Placed(s)
  {
  }

  /** Every state of every run satisfies the invariants. */
  lemma {:induction false} InvRun(c: Config, tr: seq<State>, es: seq<Event>, n: nat)
    requires c.Valid() && IsRun(c, tr, es) && n < |tr|
    ensures Inv(c, tr[n])
  {
    if n == 0 {
      InvInit(c, tr[0]);
    } else {
      InvRun(c, tr, es, n - 1);
      InvStep(c, tr[n - 1], es[n - 1]);
      assert tr[n - 1 + 1] == Next(c, tr[n - 1], es[n - 1]);
    }
  }
}
