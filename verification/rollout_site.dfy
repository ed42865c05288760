/** The rollout as code, on three directories and the registry's current rule set. `seen` logs
    every value the live directory takes. */
module RolloutSite {
  import opened Common
  import opened PackSpec
  import opened RolloutSpec

  /** The text of a file as written: data file references made absolute. */
  type Rewrite = (string, string) -> string

  /** `base` with `files` written over it in order. */
  function Overlay(base: map<string, string>, files: seq<File>, name: string, rewrite: Rewrite): map<string, string> {
    if files == [] then base
    else
      var f := files[|files| - 1];
      Overlay(base, files[..|files| - 1], name, rewrite)[f.name := rewrite(f.text, name)]
  }

  /** The tree a manifest writes: each profile's directory holds the data files and then the
      profile's own files. */
  function TreeOf(m: Manifest, rewrite: Rewrite): Tree {
    map name | name in m.profiles :: Overlay(m.data, m.profiles[name], name, rewrite)
  }

  predicate SafeProfile(m: Manifest, name: string)
    requires name in m.profiles
  {
    && SafeName(name)
    && (forall d :: d in m.data ==> SafeName(d))
    && (forall f :: f in m.profiles[name] ==> SafeName(f.name))
  }

  /** writeTree refuses exactly the manifests with an unsafe name, if no write fails. */
  function Writes(m: Manifest, rewrite: Rewrite): Option<Tree> {
    if forall name :: name in m.profiles ==> SafeProfile(m, name) then Some(TreeOf(m, rewrite)) else None
  }

  class Site<S> {
    const build: Tree -> Option<S>
    const rewrite: Rewrite
    var staging: Dir
    var prev: Dir
    var live: Dir
    var served: S
    ghost var seen: seq<Dir>

    ghost function W(): World<S>
      reads this
    {
      World(prev, live, served)
    }

    constructor (build: Tree -> Option<S>, rewrite: Rewrite, live: Dir, served: S)
      ensures this.build == build && this.rewrite == rewrite
      ensures W() == World(Absent, live, served) && seen == [live]
    {
      this.build, this.rewrite := build, rewrite;
      this.live, this.served := live, served;
      staging, prev, seen := Absent, Absent, [live];
    }

    method SetLive(d: Dir)
      modifies this`live, this`seen
      ensures live == d && seen == old(seen) + [d]
    {
      live := d;
      seen := seen + [d];
    }

    /** Renames `live` to `prev`. */
    method Park(fails: bool) returns (ok: bool, missing: bool)
      modifies this`live, this`prev, this`seen
      ensures missing <==> old(live) == Absent && !fails
      ensures ok <==> !fails && old(live) != Absent && !Blocks(old(prev))
      ensures if ok then prev == old(live) && live == Absent && seen == old(seen) + [Absent]
              else prev == old(prev) && live == old(live) && seen == old(seen)
    {
      ok, missing := false, false;
      if fails {
        return;
      }
      if live == Absent {
        missing := true;
      } else if !Blocks(prev) {
        prev := live;
        SetLive(Absent);
        ok := true;
      }
    }

    /** Renames the staged tree to `live`. */
    method Promote(fails: bool) returns (ok: bool)
      modifies this`live, this`seen, this`staging
      ensures ok <==> !fails && Staged(old(staging)) && !Blocks(old(live))
      ensures if ok then live == old(staging) && seen == old(seen) + [live]
              else live == old(live) && seen == old(seen) && staging == old(staging)
    {
      ok := !fails && Staged(staging) && !Blocks(live);
      if ok {
        SetLive(staging);
        staging := Absent;
      }
    }

    /** The staging directory holds a tree only if some profile was written. */
    static predicate Staged(d: Dir) {
      d != Absent && d.tree != map[]
    }

    /** Renames `prev` back to `live`. */
    method Unpark(fails: bool) returns (ok: bool)
      modifies this`live, this`prev, this`seen
      ensures ok <==> !fails && old(prev) != Absent && !Blocks(old(live))
      ensures if ok then live == old(prev) && prev == Absent && seen == old(seen) + [live]
              else live == old(live) && prev == old(prev) && seen == old(seen)
    {
      ok := !fails && prev != Absent && !Blocks(live);
      if ok {
        SetLive(prev);
        prev := Absent;
      }
    }

    /** Builds the live tree and, only if that succeeds, serves it. */
    method ReloadFrom(fails: bool) returns (ok: bool)
      modifies this`served
      ensures ok <==> !fails && BuildDir(build, live).Some?
      ensures served == if ok then BuildDir(build, live).value else old(served)
    {
      if fails || live == Absent {
        return false;
      }
      var built := build(live.tree);
      if built == None {
        return false;
      }
      served := built.value;
      ok := true;
    }

    /** Writes the data files, if their names are safe. */
    method SafeDataFiles(m: Manifest) returns (files: Option<map<string, string>>)
      ensures files.Some? <==> forall d :: d in m.data ==> SafeName(d)
      ensures files.Some? ==> files.value == m.data
    {
      var out: map<string, string> := map[];
      var todo := m.data.Keys;
      while todo != {}
        invariant todo <= m.data.Keys
        invariant forall d :: d in out <==> d in m.data && d !in todo
        invariant forall d :: d in out ==> SafeName(d) && out[d] == m.data[d]
        decreases todo
      {
        var d :| d in todo;
        todo := todo - {d};
        if !SafeName(d) {
          return None;
        }
        out := out[d := m.data[d]];
      }
      assert out == m.data;
      return Some(out);
    }

    method WriteProfile(m: Manifest, name: string) returns (dir: Option<map<string, string>>)
      requires name in m.profiles
      ensures dir.Some? <==> SafeProfile(m, name)
      ensures dir.Some? ==> dir.value == Overlay(m.data, m.profiles[name], name, rewrite)
    {
      if !SafeName(name) {
        return None;
      }
      var data := SafeDataFiles(m);
      if data == None {
        return None;
      }
      var files := data.value;
      var fs := m.profiles[name];
      for i := 0 to |fs|
        invariant forall f :: f in fs[..i] ==> SafeName(f.name)
        invariant files == Overlay(m.data, fs[..i], name, rewrite)
      {
        if !SafeName(fs[i].name) {
          assert fs[i] in fs;
          return None;
        }
        assert fs[..i + 1][..i] == fs[..i];
        files := files[fs[i].name := rewrite(fs[i].text, name)];
      }
      assert fs[..|fs|] == fs;
      return Some(files);
    }

    method WriteTree(m: Manifest, fails: bool) returns (ok: bool)
      modifies this`staging
      ensures ok <==> !fails && Writes(m, rewrite).Some?
      ensures ok ==> staging == Holds(TreeOf(m, rewrite))
    {
      staging := Holds(map[]);
      if fails {
        return false;
      }
      var tree: Tree := map[];
      var todo := m.profiles.Keys;
      while todo != {}
        invariant todo <= m.profiles.Keys
        invariant forall name :: name in tree <==> name in m.profiles && name !in todo
        invariant forall name :: name in tree ==> SafeProfile(m, name) && tree[name] == TreeOf(m, rewrite)[name]
        modifies this`staging
        decreases todo
      {
        var name :| name in todo;
        todo := todo - {name};
        var dir := WriteProfile(m, name);
        if dir == None {
          return false;
        }
        tree := tree[name := dir.value];
        staging := Holds(tree);
      }
      assert tree == TreeOf(m, rewrite);
      staging := Holds(tree);
      ok := true;
    }

    /** Until the removal of a rejected tree begins (`cut`), live is only ever absent, the old
        tree or the complete new one. */
    method Apply(m: Manifest, f: Faults) returns (end: End, ghost cut: nat)
      modifies this
      ensures (W(), end) == ApplySpec(build, old(W()), Writes(m, rewrite), f)
      ensures |old(seen)| <= cut <= |seen| && old(seen) <= seen
      ensures end != Rejected ==> cut == |seen|
      ensures forall i :: |old(seen)| <= i < cut ==> seen[i] in {Absent, old(live), Holds(TreeOf(m, rewrite))}
    {
      cut := |seen|;
      var written := WriteTree(m, f.writeFails);
      if !written {
        staging := Absent;
        return NotWritten, |seen|;
      }
      prev := AfterRemove(prev, f.removePrev);
      end, cut := Swap(f, old(W()), TreeOf(m, rewrite));
    }

    /** From the staged tree on: park the live tree, promote the staged one, serve it. */
    method Swap(f: Faults, ghost w: World<S>, ghost tree: Tree) returns (end: End, ghost cut: nat)
      requires staging == Holds(tree) && W() == w.(prev := AfterRemove(w.prev, f.removePrev))
      modifies this
      ensures (W(), end) == Swapped(build, w, tree, f)
      ensures |old(seen)| <= cut <= |seen| && old(seen) <= seen
      ensures end != Rejected ==> cut == |seen|
      ensures forall i :: |old(seen)| <= i < cut ==> seen[i] in {Absent, old(live), Holds(tree)}
    {
      cut := |seen|;
      var liveExisted := true;
      var parked, missing := Park(f.parkFails);
      if !parked {
        if !missing {
          staging := Absent;
          return NotParked, |seen|;
        }
        liveExisted := false;
      }
      var promoted := Promote(f.promoteFails);
      if !promoted {
        if liveExisted {
          var _ := Unpark(f.unparkFails);
        }
        staging := Absent;
        return NotPromoted, |seen|;
      }
      staging := Absent;
      cut := |seen|;
      end := Settle(liveExisted, f, w);
    }

    /** Serves the promoted tree, or takes it away and puts the old one back. */
    method Settle(liveExisted: bool, f: Faults, ghost w: World<S>) returns (end: End)
      requires live != Absent && w.served == served
      requires liveExisted <==> w.live != Absent
      requires liveExisted ==> prev == w.live
      modifies this`live, this`prev, this`served, this`seen
      ensures (W(), end) == Settled(build, w, old(prev), old(live).tree, f)
      ensures old(seen) <= seen && (end == Applied ==> seen == old(seen))
      ensures end == Applied || end == Rejected
    {
      var reloaded := ReloadFrom(f.reloadFails);
      if !reloaded {
        SetLive(AfterRemove(live, f.removeLive));
        if liveExisted {
          var restored := Unpark(f.restoreFails);
          if restored {
            var _ := ReloadFrom(f.reloadOldFails);
          }
        }
        return Rejected;
      }
      prev := AfterRemove(prev, f.removeOld);
      return Applied;
    }
  }
}
