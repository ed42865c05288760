/** The pool's critical sections as code: the queue is a Go slice, a window `lo..hi` of a
    backing array, filtered in place, advanced by `pop` and reallocated by `append`. */
module QueuePool {
  import opened Sequences
  import opened QueueSections

  class Pool {
    const cfg: Config
    var buf: array<Task>
    var lo: nat
    var hi: nat
    var closed: bool
    var accepted: nat

    ghost predicate Valid()
      reads this
    {
      cfg.Valid() && lo <= hi <= buf.Length
    }

    ghost function Contents(): seq<Task>
      reads this, buf
      requires Valid()
    {
      buf[lo..hi]
    }

    constructor (cfg: Config)
      requires cfg.Valid()
      ensures Valid() && fresh(buf) && this.cfg == cfg
      ensures Contents() == [] && !closed && accepted == 0
    {
      this.cfg := cfg;
      buf := new Task[cfg.depth];
      lo, hi, closed, accepted := 0, 0, false, 0;
    }

    method TakeExpiredLocked(now: int) returns (dead: seq<Task>, broadcast: bool)
      requires Valid()
      modifies this`hi, buf
      ensures Valid()
      ensures Contents() == Kept(cfg, old(Contents()), now)
      ensures dead == Swept(cfg, old(Contents()), now)
      ensures broadcast <==> dead != []
    {
      dead, broadcast := [], false;
      if hi == lo {
        return;
      }
      var kept;
      kept, dead := Filter(cfg, buf, lo, hi, now);
      hi := kept;
      broadcast := |dead| > 0;
    }

    /** The in-place filter: `kept = append(kept, t)` writes behind the reading index. */
    static method Filter(cfg: Config, buf: array<Task>, lo: nat, hi: nat, now: int) returns (kept: nat, dead: seq<Task>)
      requires lo <= hi <= buf.Length
      modifies buf
      ensures lo <= kept <= hi
      ensures buf[lo..kept] == Kept(cfg, old(buf[lo..hi]), now)
      ensures dead == Swept(cfg, old(buf[lo..hi]), now)
    {
      ghost var q, front := buf[lo..hi], [];
      var i := lo;
      kept, dead := lo, [];
      while i < hi
        invariant lo <= kept <= i <= hi && |front| == kept - lo
        invariant Filtered(cfg, q[..i - lo], now, front, dead)
        invariant forall j :: 0 <= j < |front| ==> buf[lo + j] == front[j]
        invariant forall j :: i <= j < hi ==> buf[j] == q[j - lo]
      {
        var t := buf[i];
        assert t == q[i - lo];
        FilteredStep(cfg, q, i - lo, now, front, dead);
        if cfg.minBudget > LeftAt(cfg, t, now) {
          dead := dead + [t];
        } else {
          kept := AppendBehind(buf, kept, i);
          front := front + [t];
        }
        i := i + 1;
      }
      assert q[..hi - lo] == q;
      assert buf[lo..kept] == front;
    }

    ghost static predicate Filtered(cfg: Config, q: seq<Task>, now: int, front: seq<Task>, dead: seq<Task>) {
      front == Kept(cfg, q, now) && dead == Swept(cfg, q, now)
    }

    static lemma FilteredStep(cfg: Config, q: seq<Task>, n: nat, now: int, front: seq<Task>, dead: seq<Task>)
      requires n < |q| && Filtered(cfg, q[..n], now, front, dead)
      ensures if Spent(cfg, q[n], now) then Filtered(cfg, q[..n + 1], now, front, dead + [q[n]])
              else Filtered(cfg, q[..n + 1], now, front + [q[n]], dead)
    {
      SweepStep(cfg, q, n, now);
    }

    /** `kept = append(kept, t)` on a slice of the same array: overwrites one element in place. */
    static method AppendBehind(buf: array<Task>, kept: nat, i: nat) returns (more: nat)
      requires kept <= i < buf.Length
      modifies buf
      ensures more == kept + 1 && buf[..] == old(buf[..])[kept := old(buf[i])]
    {
      buf[kept] := buf[i];
      more := kept + 1;
    }

    /** `append`: writes past the window, or moves the window to a larger array; then Signal. */
    method EnqueueLocked(t: Task) returns (cond: CondCall)
      requires Valid()
      modifies this`buf, this`lo, this`hi, this`accepted, buf
      ensures Valid() && (buf == old(buf) || fresh(buf))
      ensures Contents() == old(Contents()) + [t]
      ensures accepted == old(accepted) + 1 && cond == Signal
    {
      if hi == buf.Length {
        var n := hi - lo;
        var grown := new Task[2 * n + 1];
        var i := 0;
        while i < n
          invariant 0 <= i <= n
          invariant forall j :: 0 <= j < i ==> grown[j] == buf[lo + j]
          modifies grown
        {
          grown[i] := buf[lo + i];
          i := i + 1;
        }
        assert grown[..n] == Contents();
        buf, lo, hi := grown, 0, n;
      }
      assert Contents() == old(Contents());
      buf[hi] := t;
      hi := hi + 1;
      accepted := accepted + 1;
      cond := Signal;
    }

    /** The fill level is a percentage, is 100 exactly when the queue is full, and reaches a
        threshold of at most 100 exactly when the queue holds that share of its depth. */
    method FillLocked() returns (fill: int)
      requires Valid()
      ensures fill == FillOf(cfg, |Contents()|) && 0 <= fill <= 100
      ensures fill == 100 <==> |Contents()| >= cfg.depth
      ensures forall at :: at <= 100 ==> (fill >= at <==> |Contents()| * 100 >= at * cfg.depth)
    {
      var n := hi - lo;
      if n >= cfg.depth {
        fill := 100;
        forall at | at <= 100
          ensures n * 100 >= at * cfg.depth
        {
          Product(at, 100, cfg.depth);
        }
      } else {
        fill := n * 100 / cfg.depth;
        DivisionBounds(n * 100, cfg.depth);
        forall at | at <= 100
          ensures fill >= at <==> n * 100 >= at * cfg.depth
        {
          if at <= fill {
            Product(at, fill, cfg.depth);
          } else {
            Product(fill + 1, at, cfg.depth);
          }
        }
        if fill >= 100 {
          Product(100, fill, cfg.depth);
        }
      }
    }

    /** One pass of the loop in `submitWaitLocked` and the code after it. */
    method WaitPass(t: Task, timedOut: bool, now: int) returns (step: SubmitStep, dead: seq<Task>, cond: CondCall)
      requires Valid()
      modifies this`buf, this`lo, this`hi, this`accepted, buf
      ensures Valid() && (buf == old(buf) || fresh(buf))
      ensures SubmitOut(step, dead, Contents(), cond) == WaitSection(cfg, old(Contents()), closed, timedOut, t, now)
      ensures accepted == old(accepted) + if step == Entered then 1 else 0
      ensures step == Closed <==> closed
      ensures step == Entered <==> !closed && |old(Contents())| < cfg.depth
      ensures step == TimeUp <==> !closed && |old(Contents())| >= cfg.depth && timedOut
    {
      if hi - lo >= cfg.depth && !timedOut && !closed {
        var broadcast;
        dead, broadcast := TakeExpiredLocked(now);
        if |dead| > 0 {
          return Retries, dead, if broadcast then Broadcast else Silent;
        }
        SweptNone(cfg, old(Contents()), now);
        return Waits, [], Silent;
      }
      if closed {
        return Closed, [], Silent;
      }
      if hi - lo < cfg.depth {
        cond := EnqueueLocked(t);
        return Entered, [], cond;
      }
      return TimeUp, [], Silent;
    }

    /** The locked part of `Submit`; `fill` is what the task records of the queue it found. */
    method SubmitLocked(t: Task, now1: int, now2: int)
      returns (step: SubmitStep, dead: seq<Task>, cond: CondCall, fill: int)
      requires Valid()
      modifies this`buf, this`lo, this`hi, this`accepted, buf
      ensures Valid() && (buf == old(buf) || fresh(buf))
      ensures SubmitOut(step, dead, Contents(), cond) == GateSection(cfg, old(Contents()), closed, t, now1, now2)
      ensures accepted == old(accepted) + if step == Entered then 1 else 0
      ensures fill == if closed then 0 else FillOf(cfg, |old(Contents())|)
      ensures step == Closed <==> closed
      ensures step == Entered <==> !closed && |old(Contents())| < cfg.depth
      ensures step == TurnedAway <==> !closed && cfg.full == Drop && |old(Contents())| >= cfg.depth
      ensures step.NoTime? <==> !closed && cfg.full == Wait && |old(Contents())| >= cfg.depth
                                && t.deadline - (now1 - t.enqueued) < cfg.reserve + cfg.minBudget
    {
      if closed {
        return Closed, [], Silent, 0;
      }
      fill := FillLocked();
      if hi - lo < cfg.depth {
        cond := EnqueueLocked(t);
        return Entered, [], cond, fill;
      }
      if cfg.full == Wait {
        var left := LeftAt(cfg, t, now1);
        if left < cfg.minBudget {
          return NoTime(left), [], Silent, fill;
        }
        step, dead, cond := WaitPass(t, false, now2);
        return;
      }
      return TurnedAway, [], Silent, fill;
    }

    method CloseLocked() returns (broadcast: bool)
      requires Valid()
      modifies this`closed
      ensures Valid() && CloseOut(closed, Contents(), broadcast) == CloseSection(old(Contents()))
      ensures closed && broadcast && Contents() == old(Contents())
    {
      closed := true;
      broadcast := true;
    }

    /** One pass of the loop in `pop`. */
    method PopPass(now: int) returns (step: PopStep, dead: seq<Task>, broadcast: bool)
      requires Valid()
      modifies this`lo, this`hi, buf
      ensures Valid()
      ensures PopOut(step, dead, Contents(), broadcast) == PopSection(cfg, old(Contents()), closed, now)
      ensures step == Exit ==> closed
      ensures step == Sleep <==> !closed && old(Contents()) == []
    {
      NoneLeft(cfg, Contents(), now);
      dead, broadcast := TakeExpiredLocked(now);
      if hi - lo > 0 {
        var t := buf[lo];
        ghost var kept := Contents();
        lo := lo + 1;
        assert Contents() == kept[1..];
        return Took(t), dead, true;
      }
      if closed {
        return Exit, dead, broadcast;
      }
      if |dead| > 0 {
        return Again, dead, broadcast;
      }
      return Sleep, [], false;
    }
  }

  lemma SweptNone(c: Config, q: seq<Task>, now: int)
    requires Swept(c, q, now) == []
    ensures Kept(c, q, now) == q
  {
    SweepPartitions(c, q, now);
    SweepOrder(c, q, now);
    assert |multiset(Kept(c, q, now))| == |multiset(q)|;
    SubsequenceLength(Kept(c, q, now), q);
  }

  lemma Product(a: int, b: int, m: nat)
    requires a <= b
    ensures a * m <= b * m
  {
  }

  lemma DivisionBounds(a: nat, m: nat)
    requires m > 0
    ensures (a / m) * m <= a < (a / m + 1) * m
  {
  }
}
