/** What each critical section of the worker pool computes, as functions of the queue it
    finds. The class in queue_pool.dfy is proved against these functions, and the step
    system in queue_machine.dfy is built from them. */
module QueueSections {
  import opened Sequences

  /** A submitted task. `id` stands for the pointer's identity. */
  datatype Task = Task(id: nat, deadline: int, enqueued: int)

  datatype FullMode = Drop | Wait

  datatype Config = Config(workers: nat, depth: nat, reserve: int, minBudget: int, full: FullMode)
  {
    predicate Valid() {
      workers >= 1 && depth >= 1
    }
  }

  function LeftAt(c: Config, t: Task, now: int): int {
    t.deadline - (now - t.enqueued) - c.reserve
  }

  predicate Spent(c: Config, t: Task, now: int) {
    LeftAt(c, t, now) < c.minBudget
  }

  /** The tasks that stay in the queue when it is swept at `now`, in order. */
  function Kept(c: Config, q: seq<Task>, now: int): seq<Task> {
    if q == [] then []
    else
      var n := |q| - 1;
      Kept(c, q[..n], now) + if Spent(c, q[n], now) then [] else [q[n]]
  }

  /** The tasks swept out of the queue at `now`, in order. */
  function Swept(c: Config, q: seq<Task>, now: int): seq<Task> {
    if q == [] then []
    else
      var n := |q| - 1;
      Swept(c, q[..n], now) + if Spent(c, q[n], now) then [q[n]] else []
  }

  /** How one pass of the loop in `pop` ends. */
  datatype PopStep = Took(head: Task) | Exit | Again | Sleep

  datatype PopOut = PopOut(step: PopStep, dead: seq<Task>, q: seq<Task>, broadcast: bool)

  function PopSection(c: Config, q: seq<Task>, closed: bool, now: int): PopOut {
    var kept, dead := Kept(c, q, now), Swept(c, q, now);
    if kept != [] then PopOut(Took(kept[0]), dead, kept[1..], true)
    else if closed then PopOut(Exit, dead, kept, dead != [])
    else if dead != [] then PopOut(Again, dead, kept, true)
    else PopOut(Sleep, [], kept, false)
  }

  /** How a submitter leaves a critical section: it entered the queue, it found the pool
      closed, it ran out of time, it is turned away, or it keeps waiting. */
  datatype SubmitStep = Entered | Closed | TimeUp | NoTime(left: int) | TurnedAway | Waits | Retries

  /** What a section does to the condition variable. */
  datatype CondCall = Silent | Signal | Broadcast

  datatype SubmitOut = SubmitOut(step: SubmitStep, dead: seq<Task>, q: seq<Task>, cond: CondCall)

  /** One pass of the loop in `submitWaitLocked`, with the code after the loop. */
  function WaitSection(c: Config, q: seq<Task>, closed: bool, timedOut: bool, t: Task, now: int): SubmitOut {
    if |q| >= c.depth && !timedOut && !closed then
      var dead := Swept(c, q, now);
      if dead != [] then SubmitOut(Retries, dead, Kept(c, q, now), Broadcast)
      else SubmitOut(Waits, [], q, Silent)
    else if closed then SubmitOut(Closed, [], q, Silent)
    else if |q| < c.depth then SubmitOut(Entered, [], q + [t], Signal)
    else SubmitOut(TimeUp, [], q, Silent)
  }

  /** The locked part of `Submit`. The clock is read at `now1` for the remaining wait and at
      `now2` for the sweep. */
  function GateSection(c: Config, q: seq<Task>, closed: bool, t: Task, now1: int, now2: int): SubmitOut {
    if closed then SubmitOut(Closed, [], q, Silent)
    else if |q| < c.depth then SubmitOut(Entered, [], q + [t], Signal)
    else if c.full == Drop then SubmitOut(TurnedAway, [], q, Silent)
    else if Spent(c, t, now1) then SubmitOut(NoTime(LeftAt(c, t, now1)), [], q, Silent)
    else WaitSection(c, q, false, false, t, now2)
  }

  datatype CloseOut = CloseOut(closed: bool, q: seq<Task>, broadcast: bool)

  /** The locked part of `Close`. */
  function CloseSection(q: seq<Task>): CloseOut {
    CloseOut(true, q, true)
  }

  /** How full a queue of n tasks is, in percent. */
  function FillOf(c: Config, n: nat): int {
    if n >= c.depth then 100 else n * 100 / c.depth
  }

  /** A task runs out of time when its deadline, less the time it has been queued and the reserve, is
      below the minimum budget. The locked part of `Submit` finds, in this order: a closed pool; room;
      a full queue in drop mode; a task out of time; and otherwise it sweeps, and waits only if that
      removes nothing. */
  lemma GateDecides(c: Config, q: seq<Task>, closed: bool, t: Task, now1: int, now2: int)
    ensures var step := GateSection(c, q, closed, t, now1, now2).step;
      var late := t.deadline - (now1 - t.enqueued) < c.reserve + c.minBudget;
      && (step == Closed <==> closed)
      && (step == Entered <==> !closed && |q| < c.depth)
      && (step == TurnedAway <==> !closed && |q| >= c.depth && c.full == Drop)
      && (step.NoTime? <==> !closed && |q| >= c.depth && c.full == Wait && late)
      && (step.NoTime? ==> step.left == t.deadline - (now1 - t.enqueued) - c.reserve)
      && (step == Retries <==> !closed && |q| >= c.depth && c.full == Wait && !late && SomeLate(c, q, now2))
      && (step == Waits <==> !closed && |q| >= c.depth && c.full == Wait && !late && !SomeLate(c, q, now2))
    ensures SubmitMoves(q, t, GateSection(c, q, closed, t, now1, now2))
  {
    SweptSome(c, q, now2);
  }

  /** A pass of the waiting loop goes round while the queue is full, the timer has not fired and the
      pool is open; behind the loop a closed pool comes first, then room, then the timer. */
  lemma WaitDecides(c: Config, q: seq<Task>, closed: bool, timedOut: bool, t: Task, now: int)
    ensures var step := WaitSection(c, q, closed, timedOut, t, now).step;
      && (step == Closed <==> closed)
      && (step == Entered <==> !closed && |q| < c.depth)
      && (step == TimeUp <==> !closed && |q| >= c.depth && timedOut)
      && (step == Retries <==> !closed && |q| >= c.depth && !timedOut && SomeLate(c, q, now))
      && (step == Waits <==> !closed && |q| >= c.depth && !timedOut && !SomeLate(c, q, now))
    ensures SubmitMoves(q, t, WaitSection(c, q, closed, timedOut, t, now))
  {
    SweptSome(c, q, now);
  }

  /** What a submitter's section does to the queue and the condition variable: entering appends and
      signals, a sweep that removes something broadcasts, and nothing else touches either. */
  ghost predicate SubmitMoves(q: seq<Task>, t: Task, out: SubmitOut) {
    match out.step
    case Entered => out.q == q + [t] && out.dead == [] && out.cond == Signal
    case Retries => multiset(out.q) + multiset(out.dead) == multiset(q) && out.dead != [] && out.cond == Broadcast
    case _ => out.q == q && out.dead == [] && out.cond == Silent
  }

  ghost predicate SomeLate(c: Config, q: seq<Task>, now: int) {
    exists t :: t in q && t.deadline - (now - t.enqueued) < c.reserve + c.minBudget
  }

  lemma SweptSome(c: Config, q: seq<Task>, now: int)
    ensures Swept(c, q, now) != [] <==> SomeLate(c, q, now)
    ensures multiset(Kept(c, q, now)) + multiset(Swept(c, q, now)) == multiset(q)
  {
    SweepMembers(c, q, now);
    SweepPartitions(c, q, now);
    if Swept(c, q, now) != [] {
      assert Swept(c, q, now)[0] in Swept(c, q, now);
    }
  }

  /** A pass of `pop` takes the first task that is in time, from behind the late ones; it stops only on
      a closed pool with no such task, and sleeps only on an open pool with an empty queue. */
  lemma PopDecides(c: Config, q: seq<Task>, closed: bool, now: int)
    ensures var out := PopSection(c, q, closed, now);
      && (out.step.Took? <==> SomeInTime(c, q, now))
      && (out.step == Exit <==> closed && !SomeInTime(c, q, now))
      && (out.step == Again <==> !closed && !SomeInTime(c, q, now) && q != [])
      && (out.step == Sleep <==> !closed && q == [])
      && (out.broadcast <==> out.step.Took? || SomeLate(c, q, now))
    ensures PopMoves(c, q, now, PopSection(c, q, closed, now))
  {
    SweptSome(c, q, now);
    KeptSome(c, q, now);
    NoneLeft(c, q, now);
    PopTakes(c, q, closed, now);
  }

  lemma NoneLeft(c: Config, q: seq<Task>, now: int)
    ensures q == [] <==> Kept(c, q, now) == [] && Swept(c, q, now) == []
  {
    SweepPartitions(c, q, now);
    if Kept(c, q, now) == [] && Swept(c, q, now) == [] {
      assert |multiset(q)| == 0;
    }
  }

  lemma PopTakes(c: Config, q: seq<Task>, closed: bool, now: int)
    ensures PopMoves(c, q, now, PopSection(c, q, closed, now))
  {
    SweepPartitions(c, q, now);
    HeadApart(Kept(c, q, now));
    if Kept(c, q, now) != [] {
      FirstKept(c, q, now);
    }
  }

  lemma HeadApart(kept: seq<Task>)
    ensures kept != [] ==> multiset([kept[0]]) + multiset(kept[1..]) == multiset(kept)
  {
    if kept != [] {
      assert kept == [kept[0]] + kept[1..];
    }
  }

  /** The head, the dead and the new queue are the old queue, and the head is the first in time. */
  ghost predicate PopMoves(c: Config, q: seq<Task>, now: int, out: PopOut) {
    Gathers(if out.step.Took? then [out.step.head] else [], out.dead, out.q, q)
    && (out.step.Took? ==> TakesFirst(c, q, now, out.step.head))
  }

  ghost predicate Gathers(head: seq<Task>, dead: seq<Task>, rest: seq<Task>, q: seq<Task>) {
    multiset(head) + multiset(rest) + multiset(dead) == multiset(q)
  }

  ghost predicate SomeInTime(c: Config, q: seq<Task>, now: int) {
    exists t :: t in q && t.deadline - (now - t.enqueued) >= c.reserve + c.minBudget
  }

  lemma KeptSome(c: Config, q: seq<Task>, now: int)
    ensures Kept(c, q, now) != [] <==> SomeInTime(c, q, now)
  {
    SweepMembers(c, q, now);
    if Kept(c, q, now) != [] {
      assert Kept(c, q, now)[0] in Kept(c, q, now);
    }
  }

  /** `head` is in time, and every task ahead of it is late. */
  ghost predicate TakesFirst(c: Config, q: seq<Task>, now: int, head: Task) {
    exists k: nat :: k < |q| && q[k] == head
      && head.deadline - (now - head.enqueued) >= c.reserve + c.minBudget
      && forall j :: 0 <= j < k ==> q[j].deadline - (now - q[j].enqueued) < c.reserve + c.minBudget
  }

  lemma {:induction false} FirstKept(c: Config, q: seq<Task>, now: int)
    requires Kept(c, q, now) != []
    ensures TakesFirst(c, q, now, Kept(c, q, now)[0])
  {
    var n := |q| - 1;
    SweepMembers(c, q[..n], now);
    if Kept(c, q[..n], now) != [] {
      FirstKept(c, q[..n], now);
    } else {
      assert forall j :: 0 <= j < n ==> q[j] in q[..n];
    }
  }

  /** A sweep treats the tasks one by one. */
  lemma SweepStep(c: Config, q: seq<Task>, n: nat, now: int)
    requires n < |q|
    ensures Kept(c, q[..n + 1], now) == Kept(c, q[..n], now) + if Spent(c, q[n], now) then [] else [q[n]]
    ensures Swept(c, q[..n + 1], now) == Swept(c, q[..n], now) + if Spent(c, q[n], now) then [q[n]] else []
  {
    assert q[..n + 1][..n] == q[..n];
  }

  /** Each task goes where its deadline sends it. */
  lemma {:induction false} SweepMembers(c: Config, q: seq<Task>, now: int)
    ensures forall t :: t in Kept(c, q, now) <==> t in q && !Spent(c, t, now)
    ensures forall t :: t in Swept(c, q, now) <==> t in q && Spent(c, t, now)
  {
    if q != [] {
      var n := |q| - 1;
      SweepMembers(c, q[..n], now);
      assert q == q[..n] + [q[n]];
    }
  }

  /** Nothing is lost or duplicated by a sweep. */
  lemma {:induction false} SweepPartitions(c: Config, q: seq<Task>, now: int)
    ensures multiset(Kept(c, q, now)) + multiset(Swept(c, q, now)) == multiset(q)
  {
    if q != [] {
      var n := |q| - 1;
      SweepPartitions(c, q[..n], now);
      assert q == q[..n] + [q[n]];
      SplitOne(Kept(c, q[..n], now), Swept(c, q[..n], now), q[..n], q[n], Spent(c, q[n], now));
    }
  }

  lemma SplitOne(kept: seq<Task>, swept: seq<Task>, q: seq<Task>, t: Task, spent: bool)
    requires multiset(kept) + multiset(swept) == multiset(q)
    ensures multiset(kept + if spent then [] else [t]) + multiset(swept + if spent then [t] else []) == multiset(q + [t])
  {
    assert multiset(q + [t]) == multiset(q) + multiset{t};
  }

  /** Both parts of a swept queue stay in queue order. */
  lemma {:induction false} SweepOrder(c: Config, q: seq<Task>, now: int)
    ensures Subsequence(Kept(c, q, now), q) && Subsequence(Swept(c, q, now), q)
  {
    if q != [] {
      var n := |q| - 1;
      SweepOrder(c, q[..n], now);
      assert q == q[..n] + [q[n]];
      SubsequencePush(Kept(c, q[..n], now), q[..n], q[n]);
      SubsequencePush(Swept(c, q[..n], now), q[..n], q[n]);
      assert Kept(c, q[..n], now) + [] == Kept(c, q[..n], now);
      assert Swept(c, q[..n], now) + [] == Swept(c, q[..n], now);
    }
  }

  lemma {:induction false} SweepDistinct(c: Config, q: seq<Task>, now: int)
    requires Distinct(q)
    ensures Distinct(Kept(c, q, now)) && Distinct(Swept(c, q, now))
  {
    if q != [] {
      var n := |q| - 1;
      assert q[n] !in q[..n];
      SweepDistinct(c, q[..n], now);
      SweepMembers(c, q[..n], now);
    }
  }
}
