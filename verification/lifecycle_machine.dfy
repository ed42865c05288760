/** Who holds each engine transaction, over any interleaving of request and response handlers,
    releases, sweeps and the registry's closing. The branches of the handlers that depend on
    the message, the rules or the network are choices of the events. */
module LifecycleMachine {
  import opened Common
  import opened StickySpec

  type Tx = nat

  /** What is done to a transaction: opened, driven through the request phases, driven through
      the response phases, closed. */
  datatype TxOp = Opened | Request | Respond | Closing

  /** The goroutines. A request keeps its transaction under a token if it wants to resume. */
  datatype Kind =
    | Req(keep: Option<Token>)
    | Rsp(token: Option<Token>, require: bool)
    | Release(rid: Token)
    | Sweeper
    | Closer

  datatype Pc =
    | Start
    | Began(ok: bool)     // engine.begin has returned or failed
    | Ready               // the outcome is there; set writes are next
    | Offering            // offerContinue
    | Asking              // the response handler knows whether it has resumed
    | Responded           // the response phases have run
    | Dropping            // about to discard what it holds, then answer
    | Replying(cont: bool)
    | Finished

  /** `live` is the transaction the goroutine works on; `doomed` are the ones the registry has
      handed it to discard, which it does before anything else. */
  datatype Act = Act(kind: Kind, pc: Pc, live: Option<Tx>, doomed: set<Tx>, replies: nat, offered: bool)

  datatype Owner = Live(a: nat) | Doomed(d: nat) | Entry(token: Token) | Closed

  /** `owner` is history: where each transaction is. */
  datatype State = State(acts: map<nat, Act>, reg: Reg<Tx>, logs: map<Tx, seq<TxOp>>, owner: map<Tx, Owner>)

  datatype Event =
    | Spawn(a: nat, kind: Kind)
    | AnswerEarly(a: nat)                   // shed; for a request also unknown profile, skip, body error, engine refuses
    | OpenTx(a: nat, tx: Tx, ok: bool)
    | CloseLive(a: nat)
    | Kept(a: nat)                          // ApplyKeep returns
    | Publish(a: nat, ok: bool)
    | Refuse(a: nat)                        // the verdict is deny or redirect
    | ParkIt(a: nat, now: int)
    | Discard(a: nat, tx: Tx)
    | TakeIt(a: nat, now: int)
    | NoToken(a: nat)
    | GiveUp(a: nat)                        // skip, or the response body cannot be inspected
    | AnswerLost(a: nat)                    // nothing resumed: lost, or no profile
    | RunResponse(a: nat)
    | DropIt(a: nat, now: int)
    | SweepIt(a: nat, now: int)
    | CloseAll(a: nat, now: int)
    | Reply(a: nat)

  ghost predicate At(s: State, a: nat, pc: Pc) {
    a in s.acts && s.acts[a].pc == pc && s.acts[a].doomed == {}
  }

  ghost predicate Enabled(s: State, e: Event) {
    match e
    case Spawn(a, kind) => a !in s.acts
    case AnswerEarly(a) => At(s, a, Start) && (s.acts[a].kind.Req? || s.acts[a].kind.Rsp?)
    case OpenTx(a, tx, ok) =>
      && tx !in s.logs
      && ((At(s, a, Start) && s.acts[a].kind.Req?)
          || (At(s, a, Asking) && s.acts[a].kind.Rsp? && !s.acts[a].kind.require && s.acts[a].live == None))
    case CloseLive(a) =>
      && (At(s, a, Dropping) || At(s, a, Responded) || At(s, a, Began(false))
          || (At(s, a, Began(true)) && s.acts[a].kind == Req(None)))
    case Kept(a) => At(s, a, Began(true)) && s.acts[a].kind.Req? && s.acts[a].kind.keep.Some?
    case Publish(a, ok) => At(s, a, Ready)
    case Refuse(a) => At(s, a, Offering)
    case ParkIt(a, now) => At(s, a, Offering) && s.acts[a].live.Some? && s.acts[a].kind.Req? && s.acts[a].kind.keep.Some?
    case Discard(a, tx) => a in s.acts && tx in s.acts[a].doomed
    case TakeIt(a, now) => At(s, a, Start) && s.acts[a].kind.Rsp? && s.acts[a].kind.token.Some?
    case NoToken(a) => At(s, a, Start) && s.acts[a].kind.Rsp? && s.acts[a].kind.token == None
    case GiveUp(a) => At(s, a, Asking)
    case AnswerLost(a) => At(s, a, Asking) && s.acts[a].live == None
    case RunResponse(a) =>
      && (At(s, a, Asking) || (At(s, a, Began(true)) && s.acts[a].kind.Rsp?))
      && s.acts[a].live.Some?
    case DropIt(a, now) => At(s, a, Start) && s.acts[a].kind.Release?
    case SweepIt(a, now) => At(s, a, Start) && s.acts[a].kind.Sweeper?
    case CloseAll(a, now) => At(s, a, Start) && s.acts[a].kind.Closer?
    case Reply(a) => a in s.acts && s.acts[a].pc.Replying? && s.acts[a].doomed == {}
  }

  /** What one step does: the goroutine's new record, the new registry, the token it parked
      under, and the transaction it touched with what it did to it. */
  datatype Effect = Effect(a: nat, me: Act, reg: Reg<Tx>, parked: Option<Token>, touched: Option<Tx>, ops: seq<TxOp>)

  function Quiet(s: State, a: nat, me: Act): Effect {
    Effect(a, me, s.reg, None, None, [])
  }

  /** The transactions of the entries that left `before`. */
  function LeftBehind(before: map<Token, Item<Tx>>, after: map<Token, Item<Tx>>): set<Tx> {
    set k | k in before && (k !in after || after[k] != before[k]) :: before[k].live
  }

  /** The transactions of the entries a Park removes. */
  function Displaced(l: Limits, items: map<Token, Item<Tx>>, rid: Token, now: int): set<Tx> {
    set k | k in ParkedOut(l, items, rid, now) :: items[k].live
  }

  function ParkEffect(l: Limits, s: State, a: nat, me: Act, rid: Token, tx: Tx, now: int): Effect {
    var (reg, out) := Lazy(l, s.reg, Park(rid, tx, now));
    var doomed := Displaced(l, s.reg.items, rid, now);
    if out == Parked(true) then Effect(a, me.(pc := Replying(true), live := None, doomed := doomed), reg, Some(rid), None, [])
    else Effect(a, me.(pc := Dropping, doomed := doomed), reg, None, None, [])
  }

  function TakeEffect(l: Limits, s: State, a: nat, me: Act, rid: Token, now: int): Effect {
    var (reg, out) := Lazy(l, s.reg, Take(rid, now));
    var live := if out.Got? then out.found else None;
    var doomed := if rid in s.reg.items && live == None then {s.reg.items[rid].live} else {};
    Effect(a, me.(pc := Asking, live := live, doomed := doomed), reg, None, None, [])
  }

  /** Drop, Sweep and Close discard everything they remove. */
  function RemoveEffect(l: Limits, s: State, a: nat, me: Act, op: Op<Tx>): Effect {
    var (reg, _) := Lazy(l, s.reg, op);
    Effect(a, me.(pc := Finished, doomed := LeftBehind(s.reg.items, reg.items)), reg, None, None, [])
  }

  ghost function EffectOf(l: Limits, s: State, e: Event): Effect
    requires Enabled(s, e)
  {
    var a := e.a;
    var me := if a in s.acts then s.acts[a] else Act(Sweeper, Start, None, {}, 0, false);
    match e
    case Spawn(_, kind) => Quiet(s, a, Act(kind, Start, None, {}, 0, false))
    case AnswerEarly(_) => Quiet(s, a, me.(pc := Replying(false)))
    case OpenTx(_, tx, ok) =>
      Quiet(s, a, me.(pc := Began(ok), live := Some(tx))).(touched := Some(tx), ops := [Opened, Request])
    case CloseLive(_) =>
      var after := me.(pc := if me.pc == Began(true) then Ready else Replying(false), live := None);
      if me.live == None then Quiet(s, a, after) else Quiet(s, a, after).(touched := me.live, ops := [Closing])
    case Kept(_) => Quiet(s, a, me.(pc := Ready))
    case Publish(_, ok) => Quiet(s, a, me.(pc := if ok && me.live.Some? then Offering else Dropping))
    case Refuse(_) => Quiet(s, a, me.(pc := Dropping))
    case ParkIt(_, now) => ParkEffect(l, s, a, me, me.kind.keep.value, me.live.value, now)
    case Discard(_, tx) => Quiet(s, a, me.(doomed := me.doomed - {tx})).(touched := Some(tx), ops := [Closing])
    case TakeIt(_, now) => TakeEffect(l, s, a, me, me.kind.token.value, now)
    case NoToken(_) => Quiet(s, a, me.(pc := Asking))
    case GiveUp(_) => Quiet(s, a, me.(pc := Dropping))
    case AnswerLost(_) => Quiet(s, a, me.(pc := Replying(false)))
    case RunResponse(_) => Quiet(s, a, me.(pc := Responded)).(touched := me.live, ops := [Respond])
    case DropIt(_, now) => RemoveEffect(l, s, a, me, Drop(me.kind.rid, now))
    case SweepIt(_, now) => RemoveEffect(l, s, a, me, Sweep(now))
    case CloseAll(_, now) => RemoveEffect(l, s, a, me, Close(now))
    case Reply(_) => Quiet(s, a, me.(pc := Finished, replies := me.replies + 1, offered := me.pc.cont))
  }

  function LogOf(s: State, tx: Tx): seq<TxOp> {
    if tx in s.logs then s.logs[tx] else []
  }

  /** Where a step leaves a transaction that was at `was`. */
  function OwnerAfter(f: Effect, tx: Tx, was: Owner): Owner {
    if f.touched == Some(tx) && f.ops == [Closing] then Closed
    else if tx in f.me.doomed then Doomed(f.a)
    else if f.me.live == Some(tx) then Live(f.a)
    else if f.parked.Some? && f.parked.value in f.reg.items && f.reg.items[f.parked.value].live == tx then Entry(f.parked.value)
    else was
  }

  ghost function Perform(s: State, f: Effect): State {
    var logs := if f.touched.Some? then s.logs[f.touched.value := LogOf(s, f.touched.value) + f.ops] else s.logs;
    State(s.acts[f.a := f.me], f.reg, logs,
          map tx | tx in logs :: OwnerAfter(f, tx, if tx in s.owner then s.owner[tx] else Closed))
  }

  ghost function Next(l: Limits, s: State, e: Event): State
    requires Enabled(s, e)
  {
    Perform(s, EffectOf(l, s, e))
  }

  ghost predicate Init(s: State) {
    s == State(map[], Empty(), map[], map[])
  }

  ghost predicate IsRun(l: Limits, tr: seq<State>, es: seq<Event>) {
    && |tr| == |es| + 1
    && Init(tr[0])
    && (forall i :: 0 <= i < |es| ==> Enabled(tr[i], es[i]) && tr[i + 1] == Next(l, tr[i], es[i]))
  }
}
