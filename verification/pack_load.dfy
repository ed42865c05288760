/** Fetching a pack's blobs and expanding it, as code over maps walked in any order. */
module PackLoad {
  import opened Common
  import opened Text
  import opened PackSpec

  /** The blob store during one fetch: what each key holds, and whether it answers at all. */
  datatype Store = Store(up: bool, get: string -> Option<string>)

  method RuntimeProfiles(p: Pack) returns (out: map<string, string>)
    ensures out == RuntimeOf(p)
  {
    out := map[];
    var todo := p.profiles.Keys;
    while todo != {}
      invariant todo <= p.profiles.Keys
      invariant forall name :: name in p.profiles && name !in todo && Survives(p, name) ==>
                  Dest(name) in out && out[Dest(name)] == p.profiles[name]
      invariant forall dest :: dest in out ==> exists name :: name !in todo && Installs(p, name, dest)
      decreases todo
    {
      var name :| name in todo;
      todo := todo - {name};
      var short := CutPrefix(name, PackPrefix);
      if !(VolumePrefix <= name) && !(short.Some? && short.value in p.profiles) {
        var dest := if short.Some? then short.value else name;
        assert Installs(p, name, dest);
        forall other | other in p.profiles && other !in todo && Survives(p, other) && other != name
          ensures Dest(other) != dest
        {
          if Dest(other) == dest {
            DestInjective(p, other, name);
          }
        }
        out := out[dest := p.profiles[name]];
      }
    }
    RuntimeIs(p);
    RuntimeUnique(p, out, RuntimeOf(p));
  }

  method ParseUUIDList(text: string) returns (out: seq<string>)
    ensures out == Ids(Lines(text))
  {
    out := [];
    var lines := Lines(text);
    var i := 0;
    while i < |lines|
      invariant 0 <= i <= |lines|
      invariant out == Ids(lines[..i])
    {
      var id := TrimSpace(lines[i]);
      assert lines[..i + 1][..i] == lines[..i];
      if id != "" {
        out := out + [id];
      }
      i := i + 1;
    }
    assert lines[..i] == lines;
  }

  method Unique(s: seq<string>) returns (out: seq<string>)
    ensures forall x :: x in out <==> x in s
    ensures |set x | x in out| == |out|
  {
    var seen: set<string> := {};
    out := [];
    for i := 0 to |s|
      invariant forall x :: x in out <==> x in s[..i]
      invariant seen == set x | x in out
      invariant |seen| == |out|
    {
      if s[i] !in seen {
        seen := seen + {s[i]};
        out := out + [s[i]];
      }
    }
  }

  method Values(m: map<string, string>) returns (out: seq<string>)
    ensures forall v :: v in out <==> exists k :: k in m && m[k] == v
  {
    out := [];
    var todo := m.Keys;
    while todo != {}
      invariant todo <= m.Keys
      invariant forall v :: v in out <==> exists k :: k in m && k !in todo && m[k] == v
      decreases todo
    {
      var k :| k in todo;
      todo := todo - {k};
      out := out + [m[k]];
    }
  }

  ghost predicate Stored(store: Store, p: Pack, blobs: Blobs) {
    forall h :: h in blobs ==> store.get(BlobKey(p, h)) == Some(blobs[h])
  }

  /** The store has a blob with this hash under its key. */
  ghost predicate Holds(hash: string -> string, store: Store, p: Pack, h: string) {
    store.get(BlobKey(p, h)).Some? && hash(store.get(BlobKey(p, h)).value) == h
  }

  /** Fetches the blobs named by `hashes`; succeeds only with every one of them, verified. */
  method MgetHashes(hash: string -> string, store: Store, p: Pack, hashes: seq<string>) returns (out: Option<Blobs>)
    ensures out.Some? <==> hashes == [] || (store.up && forall h :: h in hashes ==> Holds(hash, store, p, h))
    ensures out.Some? ==> Verified(hash, out.value) && Stored(store, p, out.value)
    ensures out.Some? ==> forall h :: h in hashes <==> h in out.value
  {
    if hashes == [] {
      return Some(map[]);
    }
    if !store.up {
      return None;
    }
    var blobs: Blobs := map[];
    for i := 0 to |hashes|
      invariant forall h :: h in hashes[..i] ==> Holds(hash, store, p, h)
      invariant Verified(hash, blobs) && Stored(store, p, blobs) && (forall h :: h in hashes[..i] <==> h in blobs)
    {
      var raw := store.get(BlobKey(p, hashes[i]));
      if raw == None || hash(raw.value) != hashes[i] {
        assert hashes[i] in hashes;
        return None;
      }
      blobs := blobs[hashes[i] := raw.value];
    }
    assert hashes[..|hashes|] == hashes;
    return Some(blobs);
  }

  /** The hashes of the files `ids` names, or None if the pack does not know one. */
  method FileHashes(p: Pack, ids: seq<string>) returns (out: Option<seq<string>>)
    ensures out.Some? <==> forall id :: id in ids ==> id in p.files
    ensures out.Some? ==> |out.value| == |ids| && forall i :: 0 <= i < |ids| ==> out.value[i] == p.files[ids[i]]
  {
    var hs: seq<string> := [];
    for i := 0 to |ids|
      invariant |hs| == i && forall j :: 0 <= j < i ==> ids[j] in p.files && hs[j] == p.files[ids[j]]
    {
      if ids[i] !in p.files {
        assert ids[i] in ids;
        return None;
      }
      hs := hs + [p.files[ids[i]]];
    }
    return Some(hs);
  }

  /** The list blob `phash` lists ids, all of which the pack knows. */
  ghost predicate Known(p: Pack, lists: Blobs, phash: string) {
    IdsOf(lists, phash) != [] && forall id :: id in IdsOf(lists, phash) ==> id in p.files
  }

  /** Profile `name` needs blob `h`: as its policy or as one of its files. */
  ghost predicate Needs(p: Pack, lists: Blobs, name: string, phash: string, h: string) {
    || (name in p.policies && p.policies[name] == h)
    || exists id :: id in IdsOf(lists, phash) && id in p.files && p.files[id] == h
  }

  ghost predicate DataHash(p: Pack, h: string) {
    exists d :: d in p.data && p.data[d] == h
  }

  ghost predicate SomeNeeds(p: Pack, runtime: map<string, string>, lists: Blobs, todo: set<string>, h: string) {
    exists name :: name in runtime && name !in todo && Needs(p, lists, name, runtime[name], h)
  }

  /** What the second round of the fetch asks for, given the profile lists: the data, policy and
      file hashes, and nothing else. */
  method Needed(p: Pack, runtime: map<string, string>, lists: Blobs) returns (out: Option<seq<string>>)
    requires forall name :: name in runtime ==> runtime[name] in lists
    ensures out.Some? <==> forall name :: name in runtime ==> Known(p, lists, runtime[name])
    ensures out.Some? ==> forall h :: h in out.value <==> DataHash(p, h) || SomeNeeds(p, runtime, lists, {}, h)
  {
    var files := Values(p.data);
    var todo := runtime.Keys;
    while todo != {}
      invariant todo <= runtime.Keys
      invariant forall name :: name in runtime && name !in todo ==> Known(p, lists, runtime[name])
      invariant forall h :: h in files <==> DataHash(p, h) || SomeNeeds(p, runtime, lists, todo, h)
      decreases todo
    {
      var name :| name in todo;
      ghost var before := todo;
      todo := todo - {name};
      var more := NeededFor(p, lists, name, runtime[name]);
      if more == None {
        return None;
      }
      forall h
        ensures SomeNeeds(p, runtime, lists, todo, h) <==> SomeNeeds(p, runtime, lists, before, h) || h in more.value
      {
        OneMoreNeeds(p, runtime, lists, before, name, h);
      }
      files := files + more.value;
    }
    return Some(files);
  }

  lemma OneMoreNeeds(p: Pack, runtime: map<string, string>, lists: Blobs, todo: set<string>, name: string, h: string)
    requires name in todo && name in runtime
    ensures SomeNeeds(p, runtime, lists, todo - {name}, h) <==>
            SomeNeeds(p, runtime, lists, todo, h) || Needs(p, lists, name, runtime[name], h)
  {
  }

  /** What one profile needs. */
  method NeededFor(p: Pack, lists: Blobs, name: string, phash: string) returns (out: Option<seq<string>>)
    requires phash in lists
    ensures out.Some? <==> Known(p, lists, phash)
    ensures out.Some? ==> forall h :: h in out.value <==> Needs(p, lists, name, phash, h)
  {
    var files := [];
    if name in p.policies {
      files := [p.policies[name]];
    }
    var ids := ParseUUIDList(lists[phash]);
    if |ids| == 0 {
      return None;
    }
    var hs := FileHashes(p, ids);
    if hs == None {
      return None;
    }
    forall h
      ensures h in hs.value <==> exists id :: id in ids && id in p.files && p.files[id] == h
    {
      if h in hs.value {
        var i :| 0 <= i < |hs.value| && hs.value[i] == h;
        assert ids[i] in ids;
      }
    }
    return Some(files + hs.value);
  }

  /** What profile `name` refers to is there: its list, with known files only, its policy and its
      files. */
  ghost predicate ProfileAvailable(hash: string -> string, store: Store, p: Pack, name: string, phash: string) {
    && Holds(hash, store, p, phash)
    && var ids := Ids(Lines(store.get(BlobKey(p, phash)).value));
    && ids != []
    && (forall id :: id in ids ==> id in p.files && Holds(hash, store, p, p.files[id]))
    && (name in p.policies ==> Holds(hash, store, p, p.policies[name]))
  }

  /** Everything a pack refers to is in a store that answers (a pack that refers to nothing does
      not ask it). */
  ghost predicate Available(hash: string -> string, store: Store, p: Pack) {
    var runtime := RuntimeOf(p);
    && (forall name :: name in runtime ==> ProfileAvailable(hash, store, p, name, runtime[name]))
    && (forall d :: d in p.data ==> Holds(hash, store, p, p.data[d]))
    && (runtime != map[] || p.data != map[] ==> store.up)
  }

  /** The fetch succeeds exactly when everything the pack refers to is available, and then holds,
      verified, everything the expansion will ask for. */
  method FetchBlobs(hash: string -> string, store: Store, p: Pack) returns (out: Option<Blobs>)
    ensures out.Some? <==> Available(hash, store, p)
    ensures out.Some? ==> Sufficient(p, RuntimeOf(p), out.value) && Verified(hash, out.value)
  {
    var rt := RuntimeProfiles(p);
    var listed := Values(rt);
    var wanted := Unique(listed);
    ListedAre(rt, listed, wanted);
    var lists := MgetHashes(hash, store, p, wanted);
    if lists == None {
      return None;
    }
    forall name | name in rt
      ensures rt[name] in lists.value && Holds(hash, store, p, rt[name])
    {
      assert rt[name] in wanted;
    }
    var files := Needed(p, rt, lists.value);
    if files == None {
      NotKnown(hash, store, p, lists.value);
      return None;
    }
    var rest := Unique(files.value);
    RestIs(hash, store, p, lists.value, files.value);
    var more := MgetHashes(hash, store, p, rest);
    if more == None {
      return None;
    }
    var blobs := lists.value + more.value;
    Suffices(p, store, rt, lists.value, more.value, files.value);
    BothVerified(hash, lists.value, more.value);
    return Some(blobs);
  }

  lemma ListedAre(rt: map<string, string>, listed: seq<string>, wanted: seq<string>)
    requires forall v :: v in listed <==> exists k :: k in rt && rt[k] == v
    requires forall x :: x in wanted <==> x in listed
    ensures forall name :: name in rt ==> rt[name] in wanted
    ensures wanted == [] <==> rt == map[]
    ensures forall x :: x in wanted ==> exists k :: k in rt && rt[k] == x
  {
    if wanted != [] {
      assert wanted[0] in wanted;
    }
  }

  lemma NotKnown(hash: string -> string, store: Store, p: Pack, lists: Blobs)
    requires Stored(store, p, lists) && forall name :: name in RuntimeOf(p) ==> RuntimeOf(p)[name] in lists
    requires exists name :: name in RuntimeOf(p) && !Known(p, lists, RuntimeOf(p)[name])
    ensures !Available(hash, store, p)
  {
    var name :| name in RuntimeOf(p) && !Known(p, lists, RuntimeOf(p)[name]);
    assert store.get(BlobKey(p, RuntimeOf(p)[name])) == Some(lists[RuntimeOf(p)[name]]);
    assert !ProfileAvailable(hash, store, p, name, RuntimeOf(p)[name]);
  }

  /** Given the lists, the pack is available iff the rest of the hashes can be fetched. */
  lemma RestIs(hash: string -> string, store: Store, p: Pack, lists: Blobs, files: seq<string>)
    requires Stored(store, p, lists)
    requires forall name :: name in RuntimeOf(p) ==>
      RuntimeOf(p)[name] in lists && Holds(hash, store, p, RuntimeOf(p)[name]) && Known(p, lists, RuntimeOf(p)[name])
    requires forall h :: h in files <==> DataHash(p, h) || SomeNeeds(p, RuntimeOf(p), lists, {}, h)
    requires RuntimeOf(p) != map[] ==> store.up
    ensures Available(hash, store, p) <==> files == [] || (store.up && forall h :: h in files ==> Holds(hash, store, p, h))
  {
    if files == [] || (store.up && forall h :: h in files ==> Holds(hash, store, p, h)) {
      RestSuffices(hash, store, p, lists, files);
    }
    if Available(hash, store, p) {
      forall h | h in files
        ensures store.up && Holds(hash, store, p, h)
      {
        RestIsNeeded(hash, store, p, lists, h);
      }
      assert files != [] ==> files[0] in files;
    }
  }

  lemma RestSuffices(hash: string -> string, store: Store, p: Pack, lists: Blobs, files: seq<string>)
    requires Stored(store, p, lists)
    requires forall name :: name in RuntimeOf(p) ==>
      RuntimeOf(p)[name] in lists && Holds(hash, store, p, RuntimeOf(p)[name]) && Known(p, lists, RuntimeOf(p)[name])
    requires forall h :: DataHash(p, h) || SomeNeeds(p, RuntimeOf(p), lists, {}, h) ==> h in files
    requires RuntimeOf(p) != map[] || files != [] ==> store.up
    requires forall h :: h in files ==> Holds(hash, store, p, h)
    ensures Available(hash, store, p)
  {
    var rt := RuntimeOf(p);
    forall d | d in p.data
      ensures Holds(hash, store, p, p.data[d]) && store.up
    {
      assert DataHash(p, p.data[d]) && p.data[d] in files;
    }
    forall name | name in rt
      ensures ProfileAvailable(hash, store, p, name, rt[name])
    {
      forall h | Needs(p, lists, name, rt[name], h)
        ensures h in files
      {
        assert SomeNeeds(p, rt, lists, {}, h);
      }
      ProfileIsAvailable(hash, store, p, lists, name, rt[name], files);
    }
    assert p.data != map[] ==> exists d :: d in p.data;
  }

  lemma RestIsNeeded(hash: string -> string, store: Store, p: Pack, lists: Blobs, h: string)
    requires Stored(store, p, lists) && Available(hash, store, p)
    requires forall name :: name in RuntimeOf(p) ==> RuntimeOf(p)[name] in lists
    requires DataHash(p, h) || SomeNeeds(p, RuntimeOf(p), lists, {}, h)
    ensures store.up && Holds(hash, store, p, h)
  {
    var rt := RuntimeOf(p);
    if SomeNeeds(p, rt, lists, {}, h) {
      var name :| name in rt && Needs(p, lists, name, rt[name], h);
      assert ProfileAvailable(hash, store, p, name, rt[name]);
      assert store.get(BlobKey(p, rt[name])) == Some(lists[rt[name]]);
    }
  }

  lemma ProfileIsAvailable(hash: string -> string, store: Store, p: Pack, lists: Blobs, name: string, phash: string, files: seq<string>)
    requires Stored(store, p, lists) && phash in lists && Holds(hash, store, p, phash) && Known(p, lists, phash)
    requires forall h :: Needs(p, lists, name, phash, h) ==> h in files
    requires forall h :: h in files ==> Holds(hash, store, p, h)
    ensures ProfileAvailable(hash, store, p, name, phash)
  {
    assert store.get(BlobKey(p, phash)) == Some(lists[phash]);
    forall id | id in IdsOf(lists, phash)
      ensures id in p.files && Holds(hash, store, p, p.files[id])
    {
      assert Needs(p, lists, name, phash, p.files[id]);
    }
    if name in p.policies {
      assert Needs(p, lists, name, phash, p.policies[name]);
    }
  }

  /** A list blob fetched again under the same hash lists the same ids. */
  lemma Joined(p: Pack, store: Store, lists: Blobs, more: Blobs)
    requires Stored(store, p, lists) && Stored(store, p, more)
    ensures forall h :: h in lists ==> IdsOf(lists + more, h) == IdsOf(lists, h)
  {
    forall h | h in lists
      ensures IdsOf(lists + more, h) == IdsOf(lists, h)
    {
      assert (lists + more)[h] == lists[h];
    }
  }

  lemma Suffices(p: Pack, store: Store, runtime: map<string, string>, lists: Blobs, more: Blobs, files: seq<string>)
    requires Stored(store, p, lists) && Stored(store, p, more)
    requires forall h :: h in files ==> h in more
    requires forall h :: h in files <==> DataHash(p, h) || SomeNeeds(p, runtime, lists, {}, h)
    requires forall name :: name in runtime ==> runtime[name] in lists && Known(p, lists, runtime[name])
    ensures Sufficient(p, runtime, lists + more)
  {
    Joined(p, store, lists, more);
    forall d | d in p.data
      ensures p.data[d] in lists + more
    {
      assert DataHash(p, p.data[d]);
    }
    forall name | name in runtime
      ensures ProfileReady(p, lists + more, name, runtime[name])
    {
      assert Known(p, lists, runtime[name]);
      forall h | Needs(p, lists, name, runtime[name], h)
        ensures h in more
      {
        assert SomeNeeds(p, runtime, lists, {}, h);
      }
      forall id | id in IdsOf(lists, runtime[name])
        ensures id in p.files && p.files[id] in more
      {
        assert Needs(p, lists, name, runtime[name], p.files[id]);
      }
      if name in p.policies {
        assert Needs(p, lists, name, runtime[name], p.policies[name]);
      }
    }
  }

  lemma BothVerified(hash: string -> string, a: Blobs, b: Blobs)
    requires Verified(hash, a) && Verified(hash, b)
    ensures Verified(hash, a + b)
  {
  }

  /** Expansion succeeds exactly when the default profile is there, every data name is safe, and
      everything referred to was fetched; it then describes the pack. */
  method Expand(ghost hash: string -> string, p: Pack, blobs: Blobs) returns (out: Option<Manifest>)
    requires Verified(hash, blobs)
    ensures out.Some? <==> DefaultProfile in RuntimeOf(p) && SafeData(p) && Sufficient(p, RuntimeOf(p), blobs)
    ensures out.Some? ==> Describes(hash, p, RuntimeOf(p), blobs, out.value)
  {
    var rt := RuntimeProfiles(p);
    if DefaultProfile !in rt {
      return None;
    }
    var data := ExpandData(p, blobs);
    if data == None {
      return None;
    }
    var profiles := ExpandProfiles(p, blobs, rt);
    if profiles == None {
      return None;
    }
    out := Some(Manifest(p.rev, p.sha, profiles.value, data.value));
    ExpansionDescribes(hash, p, rt, blobs, out.value);
  }

  /** The files of a profile whose blobs are all there. */
  ghost predicate Expanded(p: Pack, blobs: Blobs, name: string, phash: string, files: seq<File>) {
    ProfileReady(p, blobs, name, phash) && files == FilesOf(p, blobs, name, IdsOf(blobs, phash))
  }

  lemma ExpansionDescribes(hash: string -> string, p: Pack, rt: map<string, string>, blobs: Blobs, m: Manifest)
    requires Verified(hash, blobs) && m.rev == p.rev && m.configHash == p.sha
    requires m.data.Keys == p.data.Keys && forall d :: d in p.data ==> p.data[d] in blobs && m.data[d] == blobs[p.data[d]]
    requires m.profiles.Keys == rt.Keys && forall n :: n in rt ==> Expanded(p, blobs, n, rt[n], m.profiles[n])
    ensures Describes(hash, p, rt, blobs, m)
  {
    forall n | n in rt
      ensures FilesMatch(hash, p, n, IdsOf(blobs, rt[n]), m.profiles[n])
    {
      assert Expanded(p, blobs, n, rt[n], m.profiles[n]);
      FilesOfMatch(hash, p, blobs, n, rt[n]);
    }
  }

  method ExpandProfiles(p: Pack, blobs: Blobs, rt: map<string, string>) returns (out: Option<map<string, seq<File>>>)
    ensures out.Some? <==> ProfilesReady(p, rt, blobs)
    ensures out.Some? ==> out.value.Keys == rt.Keys
    ensures out.Some? ==> forall name :: name in rt && name in out.value ==> Expanded(p, blobs, name, rt[name], out.value[name])
  {
    var profiles: map<string, seq<File>> := map[];
    var todo := rt.Keys;
    while todo != {}
      invariant todo <= rt.Keys
      invariant forall name :: name in profiles <==> name in rt && name !in todo
      invariant forall name :: name in profiles ==> Expanded(p, blobs, name, rt[name], profiles[name])
      decreases todo
    {
      var name :| name in todo;
      var files := ExpandProfile(p, blobs, name, rt[name]);
      if files == None {
        return None;
      }
      profiles := profiles[name := files.value];
      todo := todo - {name};
    }
    assert profiles.Keys == rt.Keys;
    return Some(profiles);
  }

  method ExpandData(p: Pack, blobs: Blobs) returns (out: Option<map<string, string>>)
    ensures out.Some? <==> SafeData(p) && DataReady(p, blobs)
    ensures out.Some? ==> out.value.Keys == p.data.Keys && forall name :: name in p.data ==> out.value[name] == blobs[p.data[name]]
  {
    var data: map<string, string> := map[];
    var todo := p.data.Keys;
    while todo != {}
      invariant todo <= p.data.Keys && data.Keys == p.data.Keys - todo
      invariant forall name :: name in data ==> SafeName(name) && p.data[name] in blobs && data[name] == blobs[p.data[name]]
      decreases todo
    {
      var name :| name in todo;
      todo := todo - {name};
      if !SafeName(name) || p.data[name] !in blobs {
        return None;
      }
      data := data[name := blobs[p.data[name]]];
    }
    return Some(data);
  }

  method ExpandProfile(p: Pack, blobs: Blobs, name: string, phash: string) returns (out: Option<seq<File>>)
    ensures out.Some? <==> ProfileReady(p, blobs, name, phash)
    ensures out.Some? ==> Expanded(p, blobs, name, phash, out.value)
  {
    if phash !in blobs {
      return None;
    }
    var ids := ParseUUIDList(blobs[phash]);
    if |ids| == 0 {
      return None;
    }
    var files: seq<File> := [];
    if name in p.policies {
      if p.policies[name] !in blobs {
        return None;
      }
      files := [File(PolicyFile, blobs[p.policies[name]])];
    }
    var listed := ExpandFiles(p, blobs, ids);
    if listed == None {
      return None;
    }
    return Some(files + listed.value);
  }

  method ExpandFiles(p: Pack, blobs: Blobs, ids: seq<string>) returns (out: Option<seq<File>>)
    ensures out.Some? <==> forall id :: id in ids ==> id in p.files && p.files[id] in blobs
    ensures out.Some? ==> out.value == ListedFiles(p, blobs, ids)
  {
    var files: seq<File> := [];
    for i := 0 to |ids|
      invariant forall id :: id in ids[..i] ==> id in p.files && p.files[id] in blobs
      invariant files == ListedFiles(p, blobs, ids[..i])
    {
      if ids[i] !in p.files || p.files[ids[i]] !in blobs {
        assert ids[i] in ids;
        return None;
      }
      files := files + [File(FileName(i, ids[i]), blobs[p.files[ids[i]]])];
    }
    assert ids[..|ids|] == ids;
    return Some(files);
  }

  /** Fetch suffices for expand: whatever a successful fetch returns expands, unless the default
      profile is missing or a data name is unsafe; both are plain from the pack. */
  method FetchThenExpand(hash: string -> string, store: Store, p: Pack) returns (fetched: bool, out: Option<Manifest>)
    ensures fetched <==> Available(hash, store, p)
    ensures out.Some? <==> fetched && DefaultProfile in RuntimeOf(p) && SafeData(p)
  {
    var blobs := FetchBlobs(hash, store, p);
    if blobs == None {
      return false, None;
    }
    fetched := true;
    out := Expand(hash, p, blobs.value);
  }
}
