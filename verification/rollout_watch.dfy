/** The watcher: it takes packs as they arrive, retries the newest one while its blobs cannot be
    fetched, and records which pack is in effect. */
module RolloutWatch {
  import opened Common
  import opened PackSpec
  import opened PackLoad
  import opened RolloutSpec
  import opened RolloutSite

  datatype Status = Unset | Ok | ApplyFailed

  /** One turn of the select loop, with what the store and the disk do during it. `Update(None)`
      is an entry that does not parse; `Ignored` a nil, deleted or purged entry. */
  datatype Input = Update(pack: Option<Pack>) | Ignored | RetryTick

  datatype Turn = Turn(input: Input, store: Store, faults: Faults)

  /** `m` describes `p`, with verified texts. */
  ghost predicate Ready(hash: string -> string, p: Pack, m: Manifest) {
    exists blobs :: Describes(hash, p, RuntimeOf(p), blobs, m)
  }

  datatype Prepared = Unfetched | Unexpanded | Expanded(m: Manifest)

  method Prepare(hash: string -> string, store: Store, p: Pack) returns (out: Prepared)
    ensures out.Unfetched? <==> !Available(hash, store, p)
    ensures out.Expanded? <==> Available(hash, store, p) && DefaultProfile in RuntimeOf(p) && SafeData(p)
    ensures out.Expanded? ==> Ready(hash, p, out.m)
  {
    var blobs := FetchBlobs(hash, store, p);
    if blobs == None {
      return Unfetched;
    }
    var m := Expand(hash, p, blobs.value);
    if m == None {
      return Unexpanded;
    }
    assert Describes(hash, p, RuntimeOf(p), blobs.value, m.value);
    return Expanded(m.value);
  }

  /** `w'` is what a rollout makes of `w`, and `applied` says whether it succeeded. */
  ghost predicate Rolled<S>(build: Tree -> Option<S>, w: World<S>, t: Option<Tree>, f: Faults, w': World<S>, applied: bool) {
    var (after, end) := ApplySpec(build, w, t, f);
    w' == after && (applied <==> end == Applied)
  }

  /** What a rollout does to what is served. */
  method Install<S>(site: Site<S>, m: Manifest, f: Faults) returns (applied: bool, ghost stuck: bool)
    modifies site
    ensures Rolled(site.build, old(site.W()), Writes(m, site.rewrite), f, site.W(), applied)
    ensures applied ==> site.build(TreeOf(m, site.rewrite)) == Some(site.served) && InSync(site.build, site.W()) && !stuck
    ensures !applied && old(InSync(site.build, site.W())) && !stuck ==> site.served == old(site.served) && InSync(site.build, site.W())
    ensures f.removeLive == None ==> !stuck
  {
    ghost var before, t := site.W(), Writes(m, site.rewrite);
    var end, cut := site.Apply(m, f);
    applied, stuck := end == Applied, Stuck(t, f, end);
    if applied {
      SuccessServesNew(site.build, before, t, f);
    } else if InSync(site.build, before) {
      ErrorKeepsOld(site.build, before, t, f);
    }
  }

  class Watcher<S> {
    const hash: string -> string
    const site: Site<S>
    /** A manifest that a pack may expand to: `Ready`, kept behind a name. */
    ghost const fits: (Pack, Manifest) -> bool
    var appliedHash: string
    var appliedRev: int
    var status: Status
    var pending: Option<Pack>
    var armed: bool
    // History: the packs that parsed, which of them took effect, the manifest of the last one that
    // did, the set served at the start, the set that should be served now, and whether every
    // rejected tree has been removed.
    ghost var parsed: seq<Pack>
    ghost var effects: seq<nat>
    ghost var manifest: Manifest
    ghost var first: S
    ghost var wanted: S
    ghost var clean: bool

    ghost function Newest(): nat
      requires parsed != []
      reads this`parsed
    {
      |parsed| - 1
    }

    /** Packs take effect in arrival order, each at most once. */
    ghost predicate Ordered()
      reads this`effects, this`parsed
    {
      && (forall i :: 0 <= i < |effects| ==> effects[i] < |parsed|)
      && (forall i, j :: 0 <= i < j < |effects| ==> effects[i] < effects[j])
    }

    /** The recorded hash and revision name the last pack that took effect, and the set it builds
        to is the one that should be served. */
    ghost predicate Names()
      reads this`effects, this`parsed, this`appliedHash, this`appliedRev, this`status, this`wanted, this`first, this`manifest
    {
      if effects == [] then appliedHash == "" && appliedRev == 0 && status != Ok && wanted == first
      else
        var e := effects[|effects| - 1];
        && e < |parsed| && appliedHash == parsed[e].sha && appliedRev == parsed[e].rev
        && fits(parsed[e], manifest) && site.build(TreeOf(manifest, site.rewrite)) == Some(wanted)
    }

    /** While no rejected tree is stuck, that set is served. */
    ghost predicate Serves()
      reads this`clean, this`wanted, site
    {
      clean ==> InSync(site.build, site.W()) && site.served == wanted
    }

    /** The retry timer is armed exactly while a pack is pending, and that is the newest one. */
    ghost predicate Waits()
      reads this`armed, this`pending, this`parsed, this`effects
    {
      && (armed <==> pending.Some?)
      && (pending.Some? ==> parsed != [] && pending.value == parsed[Newest()] && Newest() !in effects)
    }

    ghost predicate Valid()
      reads this, site
    {
      Ordered() && Names() && Serves() && Waits() && FitsReady()
    }

    constructor (hash: string -> string, site: Site<S>)
      requires InSync(site.build, site.W())
      ensures Valid() && this.hash == hash && this.site == site && clean && first == site.served
      ensures parsed == [] && effects == [] && Current()
      ensures forall p, m :: fits(p, m) <==> Ready(hash, p, m)
    {
      this.hash, this.site := hash, site;
      fits := (p, m) => Ready(hash, p, m);
      appliedHash, appliedRev, status := "", 0, Unset;
      pending, armed := None, false;
      parsed, effects, first, wanted, clean := [], [], site.served, site.served, true;
      manifest := Manifest(0, "", map[], map[]);
    }

    ghost predicate FitsReady()
    {
      forall p, m :: Ready(hash, p, m) ==> fits(p, m)
    }

    /** Preparation stops at the fetch iff something the pack refers to is not available, and
        otherwise at the expansion iff the pack has no default profile or an unsafe data name. */
    ghost predicate Fetches(store: Store, p: Pack, out: Prepared) {
      && (out.Unfetched? <==> !Available(hash, store, p))
      && (out.Expanded? <==> Available(hash, store, p) && DefaultProfile in RuntimeOf(p) && SafeData(p))
      && (out.Expanded? ==> fits(p, out.m))
    }

    method PrepareFit(store: Store, p: Pack) returns (out: Prepared)
      requires FitsReady()
      ensures Fetches(store, p, out)
    {
      out := Prepare(hash, store, p);
    }

    /** What handling a pack does. A pack already in effect is skipped; otherwise only a fetch that
        fails is retried, and the pack takes effect exactly when it expands and rolls out. */
    ghost predicate Handled(skip: bool, w: World<S>, w': World<S>, store: Store, p: Pack, f: Faults,
                            prepared: Prepared, again: bool, took: bool, now: Status)
    {
      if skip then !again && !took && w' == w && now == Ok
      else
        && Fetches(store, p, prepared) && (again <==> prepared.Unfetched?)
        && (if prepared.Expanded? then Rolled(site.build, w, Writes(prepared.m, site.rewrite), f, w', took)
            else !took && w' == w)
        && now == if took then Ok else ApplyFailed
    }

    /** Tries to put the newest pack into effect; true asks for a retry. */
    method Handle(p: Pack, store: Store, f: Faults) returns (again: bool, ghost prepared: Prepared)
      requires FitsReady() && Ordered() && Names() && Serves()
      requires parsed != [] && p == parsed[Newest()] && Newest() !in effects
      modifies this`appliedHash, this`appliedRev, this`status, this`effects, this`manifest, this`wanted, this`clean, site
      ensures Ordered() && Names() && Serves()
      ensures effects == old(effects) || effects == old(effects) + [Newest()]
      ensures old(clean) && f.removeLive == None ==> clean
      ensures Handled(old(InEffect(p)), old(site.W()), site.W(),
                      store, p, f, prepared, again, effects != old(effects), status)
    {
      if status == Ok && appliedHash == p.sha && appliedRev == p.rev {
        return false, Unfetched;
      }
      again, prepared := HandleOther(p, store, f);
    }

    /** Handles a pack that is not in effect. */
    method HandleOther(p: Pack, store: Store, f: Faults) returns (again: bool, ghost prepared: Prepared)
      requires FitsReady() && Ordered() && Names() && Serves()
      requires parsed != [] && p == parsed[Newest()] && Newest() !in effects
      modifies this`appliedHash, this`appliedRev, this`status, this`effects, this`manifest, this`wanted, this`clean, site
      ensures Ordered() && Names() && Serves()
      ensures effects == old(effects) || effects == old(effects) + [Newest()]
      ensures old(clean) && f.removeLive == None ==> clean
      ensures Handled(false, old(site.W()), site.W(), store, p, f, prepared, again, effects != old(effects), status)
    {
      var ready := PrepareFit(store, p);
      prepared := ready;
      again := Follow(p, ready, f);
      HandledBy(old(site.W()), site.W(), store, p, f, ready, again, effects != old(effects), status);
    }

    lemma HandledBy(w: World<S>, w': World<S>, store: Store, p: Pack, f: Faults,
                    prepared: Prepared, again: bool, took: bool, now: Status)
      requires Fetches(store, p, prepared) && (again <==> prepared.Unfetched?)
      requires prepared.Expanded? ==> Rolled(site.build, w, Writes(prepared.m, site.rewrite), f, w', took)
      requires !prepared.Expanded? ==> !took && w' == w
      requires now == if took then Ok else ApplyFailed
      ensures Handled(false, w, w', store, p, f, prepared, again, took, now)
    {
    }

    /** What follows from how a pack could be prepared. */
    method Follow(p: Pack, ready: Prepared, f: Faults) returns (again: bool)
      requires Ordered() && Names() && Serves() && (ready.Expanded? ==> fits(p, ready.m))
      requires parsed != [] && p == parsed[Newest()] && Newest() !in effects
      modifies this`appliedHash, this`appliedRev, this`status, this`effects, this`manifest, this`wanted, this`clean, site
      ensures Ordered() && Names() && Serves()
      ensures effects == old(effects) || effects == old(effects) + [Newest()]
      ensures old(clean) && f.removeLive == None ==> clean
      ensures again <==> ready.Unfetched?
      ensures ready.Expanded? ==>
        Rolled(site.build, old(site.W()), Writes(ready.m, site.rewrite), f, site.W(), effects != old(effects))
      ensures !ready.Expanded? ==> effects == old(effects) && site.W() == old(site.W())
      ensures status == (if effects != old(effects) then Ok else ApplyFailed)
    {
      if !ready.Expanded? {
        Fail();
        return ready.Unfetched?;
      }
      Roll(p, ready.m, f);
      again := false;
    }

    method Fail()
      requires Names()
      modifies this`status
      ensures Names() && status == ApplyFailed
    {
      status := ApplyFailed;
    }

    /** Rolls a manifest out and records the result. */
    method Roll(p: Pack, m: Manifest, f: Faults)
      requires Ordered() && Names() && Serves()
      requires parsed != [] && p == parsed[Newest()] && Newest() !in effects && fits(p, m)
      modifies this`appliedHash, this`appliedRev, this`status, this`effects, this`manifest, this`wanted, this`clean, site
      ensures Ordered() && Names() && Serves()
      ensures effects == old(effects) || effects == old(effects) + [Newest()]
      ensures old(clean) && f.removeLive == None ==> clean
      ensures Rolled(site.build, old(site.W()), Writes(m, site.rewrite), f, site.W(), effects != old(effects))
      ensures status == (if effects != old(effects) then Ok else ApplyFailed)
    {
      Fail();
      var applied := TryInstall(m, f);
      if applied {
        Record(p, m);
      }
    }

    /** Rolls a manifest out. What should be served is still served unless it was applied. */
    method TryInstall(m: Manifest, f: Faults) returns (applied: bool)
      requires Serves()
      modifies this`clean, site
      ensures Rolled(site.build, old(site.W()), Writes(m, site.rewrite), f, site.W(), applied)
      ensures if applied then site.build(TreeOf(m, site.rewrite)) == Some(site.served) && InSync(site.build, site.W()) else Serves()
      ensures old(clean) && f.removeLive == None ==> clean
    {
      ghost var stuck;
      applied, stuck := Install(site, m, f);
      clean := clean && !stuck;
    }

    method Record(p: Pack, m: Manifest)
      requires Ordered() && parsed != [] && p == parsed[Newest()] && Newest() !in effects && fits(p, m)
      requires site.build(TreeOf(m, site.rewrite)) == Some(site.served) && InSync(site.build, site.W())
      modifies this`appliedHash, this`appliedRev, this`status, this`effects, this`manifest, this`wanted
      ensures Ordered() && Names() && Serves()
      ensures effects == old(effects) + [Newest()] && status == Ok
    {
      appliedHash, appliedRev, status := p.sha, p.rev, Ok;
      effects := effects + [Newest()];
      manifest, wanted := m, site.served;
    }

    method Arrive(p: Pack)
      requires Valid()
      modifies this`pending, this`armed, this`parsed
      ensures Ordered() && Names() && Serves() && !armed && pending == None
      ensures parsed == old(parsed) + [p] && Newest() !in effects
    {
      pending, armed := None, false;
      parsed := parsed + [p];
    }

    /** Handles the newest pack, and keeps it pending with the timer armed if it asks for that. */
    method Attempt(p: Pack, store: Store, f: Faults) returns (ghost prepared: Prepared)
      requires FitsReady() && Ordered() && Names() && Serves()
      requires parsed != [] && p == parsed[Newest()] && Newest() !in effects
      modifies this`appliedHash, this`appliedRev, this`status, this`effects, this`manifest, this`wanted, this`clean,
        this`pending, this`armed, site
      ensures Valid()
      ensures effects == old(effects) || effects == old(effects) + [Newest()]
      ensures old(clean) && f.removeLive == None ==> clean
      ensures Handled(old(InEffect(p)), old(site.W()), site.W(), store, p, f, prepared, armed, effects != old(effects), status)
      ensures Settles(old(InEffect(p)), old(site.W()), store, p, f, prepared, armed, effects != old(effects), status)
    {
      var again;
      again, prepared := HandleNewest(p, store, f);
      Hold(p, again);
    }

    /** Handle, with what the loop needs to know about it. */
    method HandleNewest(p: Pack, store: Store, f: Faults) returns (again: bool, ghost prepared: Prepared)
      requires FitsReady() && Ordered() && Names() && Serves()
      requires parsed != [] && p == parsed[Newest()] && Newest() !in effects
      modifies this`appliedHash, this`appliedRev, this`status, this`effects, this`manifest, this`wanted, this`clean, site
      ensures Ordered() && Names() && Serves()
      ensures effects == old(effects) || (!again && effects == old(effects) + [Newest()])
      ensures old(clean) && f.removeLive == None ==> clean
      ensures Handled(old(InEffect(p)), old(site.W()), site.W(), store, p, f, prepared, again, effects != old(effects), status)
      ensures Settles(old(InEffect(p)), old(site.W()), store, p, f, prepared, again, effects != old(effects), status)
    {
      again, prepared := Handle(p, store, f);
      HandledSettles(old(InEffect(p)), old(site.W()), site.W(), store, p, f, prepared, again, effects != old(effects), status);
    }

    /** The pack is in effect: it was the last to be applied, and nothing has failed since. */
    ghost predicate InEffect(p: Pack)
      reads this`status, this`appliedHash, this`appliedRev
    {
      status == Ok && appliedHash == p.sha && appliedRev == p.rev
    }

    /** Ok is said only of the newest pack, and with nothing left to retry. */
    ghost predicate Current()
      reads this`status, this`appliedHash, this`appliedRev, this`parsed, this`armed
    {
      status == Ok ==> parsed != [] && InEffect(parsed[Newest()]) && !armed
    }

    /** A pack that was not in effect is retried iff something it refers to is not available; it takes
        effect iff it expands and its rollout ends with the tree applied, and then the status is Ok. */
    ghost predicate Settles(was: bool, w: World<S>, store: Store, p: Pack, f: Faults, prepared: Prepared,
                            again: bool, took: bool, now: Status)
    {
      if was then !again && !took && now == Ok
      else
        && (again <==> !Available(hash, store, p))
        && (prepared.Expanded? <==> Available(hash, store, p) && DefaultProfile in RuntimeOf(p) && SafeData(p))
        && (prepared.Expanded? ==> fits(p, prepared.m))
        && (took <==> prepared.Expanded? && ApplySpec(site.build, w, Writes(prepared.m, site.rewrite), f).1 == Applied)
        && (took <==> now == Ok)
    }

    lemma HandledSettles(was: bool, w: World<S>, w': World<S>, store: Store, p: Pack, f: Faults,
                         prepared: Prepared, again: bool, took: bool, now: Status)
      requires Handled(was, w, w', store, p, f, prepared, again, took, now)
      ensures Settles(was, w, store, p, f, prepared, again, took, now)
      ensures again ==> !took
    {
    }

    /** With nothing failing, a pack takes effect iff everything it refers to is available, it has a
        default profile and safe data names, its manifest can be written, and the tree builds. */
    lemma GoodPackTakesEffect(w: World<S>, store: Store, p: Pack, prepared: Prepared, again: bool, took: bool, now: Status)
      requires Settles(false, w, store, p, NoFaults(), prepared, again, took, now)
      requires prepared.Expanded? ==> Ready(hash, p, prepared.m)
      ensures took <==> prepared.Expanded? && Writes(prepared.m, site.rewrite).Some? && site.build(TreeOf(prepared.m, site.rewrite)).Some?
      ensures took ==> !again && now == Ok
    {
      if prepared.Expanded? {
        var m := prepared.m;
        assert DefaultProfile in m.profiles;
        assert DefaultProfile in TreeOf(m, site.rewrite);
        NoFaultsApplies(site.build, w, Writes(m, site.rewrite));
      }
    }

    /** Keeps the newest pack pending, or nothing. */
    method Hold(p: Pack, again: bool)
      requires FitsReady() && Ordered() && Names() && Serves()
      requires parsed != [] && p == parsed[Newest()] && (again ==> Newest() !in effects)
      modifies this`pending, this`armed
      ensures Valid() && armed == again
    {
      armed := again;
      pending := if again then Some(p) else None;
    }

    method OnUpdate(p: Pack, store: Store, f: Faults) returns (ghost prepared: Prepared)
      requires Valid()
      modifies this, site
      ensures Valid() && first == old(first)
      ensures parsed == old(parsed) + [p]
      ensures effects == old(effects) || effects == old(effects) + [Newest()]
      ensures old(clean) && f.removeLive == None ==> clean
      ensures Handled(old(InEffect(p)), old(site.W()), site.W(), store, p, f, prepared, armed, effects != old(effects), status)
      ensures Settles(old(InEffect(p)), old(site.W()), store, p, f, prepared, armed, effects != old(effects), status)
    {
      Arrive(p);
      prepared := Attempt(p, store, f);
    }

    method OnRetry(store: Store, f: Faults) returns (ghost prepared: Prepared)
      requires Valid() && armed
      modifies this, site
      ensures Valid() && first == old(first)
      ensures parsed == old(parsed) && parsed != []
      ensures effects == old(effects) || effects == old(effects) + [Newest()]
      ensures old(clean) && f.removeLive == None ==> clean
      ensures var p := parsed[Newest()];
        && Handled(old(InEffect(p)), old(site.W()), site.W(), store, p, f, prepared, armed, effects != old(effects), status)
        && Settles(old(InEffect(p)), old(site.W()), store, p, f, prepared, armed, effects != old(effects), status)
    {
      armed := false;
      prepared := Unfetched;
      if pending.Some? {
        prepared := Attempt(pending.value, store, f);
      }
    }

    /** One turn of the loop. A pack that arrives is handled, and while the timer is armed so is the
        newest one; no other turn does anything. */
    method Step(turn: Turn) returns (ghost prepared: Prepared)
      requires Valid()
      modifies this, site
      ensures Valid() && first == old(first) && (old(Current()) ==> Current())
      ensures parsed == old(parsed) + if turn.input.Update? && turn.input.pack.Some? then [turn.input.pack.value] else []
      ensures effects == old(effects) || (parsed != [] && effects == old(effects) + [Newest()])
      ensures old(clean) && turn.faults.removeLive == None ==> clean
      ensures if (turn.input.Update? && turn.input.pack.Some?) || (turn.input.RetryTick? && old(armed)) then
          parsed != [] && var p := parsed[Newest()];
          && Handled(old(InEffect(p)), old(site.W()), site.W(), turn.store, p, turn.faults, prepared, armed, effects != old(effects), status)
          && Settles(old(InEffect(p)), old(site.W()), turn.store, p, turn.faults, prepared, armed, effects != old(effects), status)
        else
          armed == old(armed) && effects == old(effects) && status == old(status) && site.W() == old(site.W())
    {
      prepared := Unfetched;
      match turn.input
      case Ignored =>
      case RetryTick =>
        if armed {
          prepared := OnRetry(turn.store, turn.faults);
        }
      case Update(pack) =>
        if pack.Some? {
          prepared := OnUpdate(pack.value, turn.store, turn.faults);
        }
    }

    /** The whole loop, over any run of turns. */
    method Watch(turns: seq<Turn>)
      requires Valid()
      modifies this, site
      ensures Valid() && first == old(first) && (old(Current()) ==> Current())
      ensures old(effects) <= effects && old(parsed) <= parsed
      ensures old(clean) && (forall i :: 0 <= i < |turns| ==> turns[i].faults.removeLive == None) ==> clean
    {
      var i := 0;
      while i < |turns|
        invariant 0 <= i <= |turns|
        invariant Valid() && first == old(first) && (old(Current()) ==> Current())
        invariant old(effects) <= effects && old(parsed) <= parsed
        invariant old(clean) && (forall j :: 0 <= j < |turns| ==> turns[j].faults.removeLive == None) ==> clean
      {
        ghost var prepared := Step(turns[i]);
        i := i + 1;
      }
    }
  }
}
