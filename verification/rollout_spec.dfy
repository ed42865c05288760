/** One rollout of a generation of profiles, as a function of the directories it finds, the tree
    it installs and the operations that fail on the way. */
module RolloutSpec {
  import opened Common

  /** A profile tree: profile, file name, text. */
  type Tree = map<string, map<string, string>>

  datatype Dir = Absent | Holds(tree: Tree)

  /** The live tree, the parked one, and the rule set being served. */
  datatype World<S> = World(prev: Dir, live: Dir, served: S)

  /** Which operations fail. A removal that fails leaves part of what it was to remove. */
  datatype Faults = Faults(
    writeFails: bool,
    removePrev: Option<Tree>,
    parkFails: bool,
    promoteFails: bool,
    unparkFails: bool,
    reloadFails: bool,
    removeLive: Option<Tree>,
    restoreFails: bool,
    reloadOldFails: bool,
    removeOld: Option<Tree>)

  datatype End = Applied | NotWritten | NotParked | NotPromoted | Rejected

  /** The part of `tree` that `rest` names. */
  function Left(tree: Tree, rest: Tree): Tree {
    map n | n in tree && n in rest :: map k | k in tree[n] && k in rest[n] :: tree[n][k]
  }

  function AfterRemove(d: Dir, fault: Option<Tree>): Dir {
    if d == Absent || fault == None then Absent else Holds(Left(d.tree, fault.value))
  }

  /** A rename replaces a directory only if that is empty. */
  predicate Blocks(d: Dir) {
    d != Absent && d.tree != map[]
  }

  function BuildDir<S>(build: Tree -> Option<S>, d: Dir): Option<S> {
    if d == Absent then None else build(d.tree)
  }

  /** Puts the parked tree back after a rejection, and serves what it builds to. */
  function Restored<S>(build: Tree -> Option<S>, w: World<S>, left: Dir, f: Faults): World<S> {
    if f.restoreFails || Blocks(left) then World(w.live, left, w.served)
    else
      var again := if f.reloadOldFails then None else BuildDir(build, w.live);
      World(Absent, w.live, if again.Some? then again.value else w.served)
  }

  /** After the promotion of `t`: serve it, or take it away and put the old tree back. `parked` is
      what the parking directory holds and `w` the world the rollout found. */
  function Settled<S>(build: Tree -> Option<S>, w: World<S>, parked: Dir, t: Tree, f: Faults): (World<S>, End) {
    if f.reloadFails || build(t) == None then
      var left := AfterRemove(Holds(t), f.removeLive);
      (if w.live != Absent then Restored(build, w, left, f) else World(parked, left, w.served), Rejected)
    else (World(AfterRemove(parked, f.removeOld), Holds(t), build(t).value), Applied)
  }

  /** Once `t` is staged: the old tree is parked, `t` promoted, and served. */
  function Swapped<S>(build: Tree -> Option<S>, w: World<S>, t: Tree, f: Faults): (World<S>, End) {
    var prev := AfterRemove(w.prev, f.removePrev);
    var existed := w.live != Absent;
    if f.parkFails || (existed && Blocks(prev)) then (w.(prev := prev), NotParked)
    else
      var parked := if existed then w.live else prev;
      if f.promoteFails || t == map[] then
        if !existed then (w.(prev := prev), NotPromoted)
        else if f.unparkFails then (World(parked, Absent, w.served), NotPromoted)
        else (World(Absent, w.live, w.served), NotPromoted)
      else Settled(build, w, parked, t, f)
  }

  /** `t` is the tree the manifest writes, or None if it cannot be written. */
  function ApplySpec<S>(build: Tree -> Option<S>, w: World<S>, t: Option<Tree>, f: Faults): (World<S>, End) {
    if t == None || f.writeFails then (w, NotWritten) else Swapped(build, w, t.value, f)
  }

  /** The live tree, if it builds at all, builds to what is served. */
  predicate InSync<S(==)>(build: Tree -> Option<S>, w: World<S>) {
    BuildDir(build, w.live) == None || BuildDir(build, w.live) == Some(w.served)
  }

  /** A rejected tree that could not be removed completely. */
  predicate Stuck(t: Option<Tree>, f: Faults, end: End) {
    end == Rejected && f.removeLive.Some?
  }

  /** Success serves the new build from the new tree. */
  lemma SuccessServesNew<S>(build: Tree -> Option<S>, w: World<S>, t: Option<Tree>, f: Faults)
    requires ApplySpec(build, w, t, f).1 == Applied
    ensures var w' := ApplySpec(build, w, t, f).0;
      t.Some? && w'.live == Holds(t.value) && build(t.value) == Some(w'.served) && InSync(build, w')
  {
  }

  /** An error serves the old set, and leaves the old tree live unless a rename back failed (then
      the old tree is parked and nothing is live) or a rejected tree stuck. */
  lemma ErrorKeepsOld<S>(build: Tree -> Option<S>, w: World<S>, t: Option<Tree>, f: Faults)
    requires InSync(build, w) && ApplySpec(build, w, t, f).1 != Applied
    ensures var (w', end) := ApplySpec(build, w, t, f);
      && w'.served == w.served
      && (!Stuck(t, f, end) ==>
            InSync(build, w') && (w'.live == w.live || (w'.live == Absent && w'.prev == w.live)))
      && (!Stuck(t, f, end) && !f.unparkFails && !f.restoreFails ==> w'.live == w.live)
  {
  }

  /** Exactly when the live tree is in sync with what is served can no failed rollout change what
      is served; a rejected tree and a restore of the old one is the way it does otherwise. */
  lemma SafeIffInSync<S>(build: Tree -> Option<S>, w: World<S>, bad: Tree)
    requires bad != map[] && build(bad) == None
    ensures (forall t, f :: ApplySpec(build, w, t, f).1 != Applied ==> ApplySpec(build, w, t, f).0.served == w.served)
      <==> InSync(build, w)
  {
    if InSync(build, w) {
      forall t, f | ApplySpec(build, w, t, f).1 != Applied
        ensures ApplySpec(build, w, t, f).0.served == w.served
      {
        ErrorKeepsOld(build, w, t, f);
      }
    } else {
      var f := Faults(false, None, false, false, false, false, None, false, false, None);
      assert ApplySpec(build, w, Some(bad), f).1 == Rejected;
      assert ApplySpec(build, w, Some(bad), f).0.served != w.served;
    }
  }

  function OneFault(rest: Tree): Faults {
    Faults(false, None, false, false, false, false, Some(rest), false, false, None)
  }

  function NoFaults(): Faults {
    Faults(false, None, false, false, false, false, None, false, false, None)
  }

  /** With nothing failing, a rollout succeeds iff its tree can be written, is not empty and builds; and
      it leaves nothing parked, unless the tree could not be written, which changes nothing. */
  lemma NoFaultsApplies<S>(build: Tree -> Option<S>, w: World<S>, t: Option<Tree>)
    ensures ApplySpec(build, w, t, NoFaults()).1 == Applied <==> t.Some? && t.value != map[] && build(t.value).Some?
    ensures if t == None then ApplySpec(build, w, t, NoFaults()) == (w, NotWritten)
            else ApplySpec(build, w, t, NoFaults()).0.prev == Absent
  {
  }

  /** Whatever fails, a rollout succeeds iff the tree is written and builds, and neither the parking,
      the promotion nor the reload fails: the parking also where the place it needs was not cleared. */
  lemma AppliesIff<S>(build: Tree -> Option<S>, w: World<S>, t: Option<Tree>, f: Faults)
    ensures ApplySpec(build, w, t, f).1 == Applied <==>
      && t.Some? && t.value != map[] && build(t.value).Some?
      && !f.writeFails && !f.parkFails && !f.promoteFails && !f.reloadFails
      && !(w.live != Absent && w.prev != Absent && f.removePrev.Some? && Left(w.prev.tree, f.removePrev.value) != map[])
  {
  }

  /** And sync can be lost: if part of a rejected tree builds, a removal that fails leaves that
      part live, and the next rejection serves it, although both rollouts reported an error. */
  lemma LeftoverTakesOver<S>(build: Tree -> Option<S>, before: Tree, bad: Tree, part: Tree, x: S, y: S)
    requires build(before) == Some(x) && build(bad) == None && bad != map[]
    requires Left(bad, part) == part && part != map[] && build(part) == Some(y) && x != y
    ensures var w0 := World(Absent, Holds(before), x);
      var (w1, e1) := ApplySpec(build, w0, Some(bad), OneFault(part));
      var (w2, e2) := ApplySpec(build, w1, Some(bad), NoFaults());
      InSync(build, w0) && e1 == Rejected && w1.served == x && e2 == Rejected && w2.served == y
  {
  }

  // ------------------------------------------------------------------ many rollouts

  datatype Attempt = Attempt(tree: Option<Tree>, faults: Faults)

  function Run<S>(build: Tree -> Option<S>, w: World<S>, tries: seq<Attempt>): World<S>
    decreases |tries|
  {
    if tries == [] then w else Run(build, ApplySpec(build, w, tries[0].tree, tries[0].faults).0, tries[1..])
  }

  /** Over any sequence of rollouts in which no rejected tree sticks, what is served is always the
      build of the last tree that was applied, or the first set if none was. */
  function LastApplied<S>(build: Tree -> Option<S>, w: World<S>, tries: seq<Attempt>): Option<Tree>
    decreases |tries|
  {
    if tries == [] then None
    else
      var (w', end) := ApplySpec(build, w, tries[0].tree, tries[0].faults);
      var later := LastApplied(build, w', tries[1..]);
      if later.Some? then later else if end == Applied then tries[0].tree else None
  }

  lemma {:induction false} RunServesLastApplied<S>(build: Tree -> Option<S>, w: World<S>, tries: seq<Attempt>)
    requires InSync(build, w)
    requires forall i :: 0 <= i < |tries| ==> tries[i].faults.removeLive == None
    ensures var w' := Run(build, w, tries);
      && InSync(build, w')
      && (match LastApplied(build, w, tries)
          case None => w'.served == w.served
          case Some(t) => build(t) == Some(w'.served))
    decreases |tries|
  {
    if tries != [] {
      var (w', end) := ApplySpec(build, w, tries[0].tree, tries[0].faults);
      if end == Applied {
        SuccessServesNew(build, w, tries[0].tree, tries[0].faults);
      } else {
        ErrorKeepsOld(build, w, tries[0].tree, tries[0].faults);
      }
      RunServesLastApplied(build, w', tries[1..]);
    }
  }
}
