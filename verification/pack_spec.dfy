/** Packs and manifests as values: which profiles a pack installs, what its files are called and
    what must be fetched for it. */
module PackSpec {
  import opened Common
  import opened Text

  datatype Pack = Pack(
    rev: int, sha: string, prefix: string,
    files: map<string, string>, profiles: map<string, string>,
    policies: map<string, string>, data: map<string, string>)

  datatype File = File(name: string, text: string)

  datatype Manifest = Manifest(
    rev: int, configHash: string, profiles: map<string, seq<File>>, data: map<string, string>)

  const DefaultProfile := "default"
  const PackPrefix := "pack-"
  const VolumePrefix := "crs-prof-"
  const HashPrefix := "sha256:"
  const PolicyFile := "policy.yaml"

  function CutPrefix(s: string, p: string): Option<string> {
    if p <= s then Some(s[|p|..]) else None
  }

  function BlobKey(p: Pack, hash: string): string {
    p.prefix + CutOr(hash, HashPrefix)
  }

  function CutOr(s: string, p: string): string {
    if p <= s then s[|p|..] else s
  }

  // ------------------------------------------------------------------ runtime profiles

  predicate Survives(p: Pack, name: string) {
    && !(VolumePrefix <= name)
    && (PackPrefix <= name ==> name[|PackPrefix|..] !in p.profiles)
  }

  function Dest(name: string): string {
    CutOr(name, PackPrefix)
  }

  /** Two surviving names never share a destination, so the order in which the profiles are
      walked does not matter. */
  lemma DestInjective(p: Pack, a: string, b: string)
    requires a in p.profiles && b in p.profiles && Survives(p, a) && Survives(p, b) && Dest(a) == Dest(b)
    ensures a == b
  {
    assert PackPrefix <= a ==> a == PackPrefix + Dest(a);
    assert PackPrefix <= b ==> b == PackPrefix + Dest(b);
  }

  /** The source name of a runtime profile. */
  ghost predicate Installs(p: Pack, name: string, dest: string) {
    name in p.profiles && Survives(p, name) && Dest(name) == dest
  }

  /** `out` is the runtime profiles of `p`. */
  ghost predicate IsRuntime(p: Pack, out: map<string, string>) {
    && (forall name :: name in p.profiles && Survives(p, name) ==> Dest(name) in out && out[Dest(name)] == p.profiles[name])
    && (forall dest :: dest in out ==> exists name :: Installs(p, name, dest))
  }

  lemma RuntimeUnique(p: Pack, a: map<string, string>, b: map<string, string>)
    requires IsRuntime(p, a) && IsRuntime(p, b)
    ensures a == b
  {
    forall dest
      ensures dest in a <==> dest in b
      ensures dest in a && dest in b ==> a[dest] == b[dest]
    {
      if dest in a {
        var name :| Installs(p, name, dest);
      }
      if dest in b {
        var name :| Installs(p, name, dest);
      }
    }
  }

  lemma DestsDiffer(p: Pack)
    ensures forall a, b :: a in p.profiles && b in p.profiles && Survives(p, a) && Survives(p, b) && Dest(a) == Dest(b) ==> a == b
  {
    forall a, b | a in p.profiles && b in p.profiles && Survives(p, a) && Survives(p, b) && Dest(a) == Dest(b)
      ensures a == b
    {
      DestInjective(p, a, b);
    }
  }

  /** The runtime profiles: each surviving name's hash, under its destination. */
  ghost function RuntimeOf(p: Pack): map<string, string> {
    DestsDiffer(p);
    map name | name in p.profiles && Survives(p, name) :: Dest(name) := p.profiles[name]
  }

  lemma RuntimeIs(p: Pack)
    ensures IsRuntime(p, RuntimeOf(p))
  {
    DestsDiffer(p);
    forall dest | dest in RuntimeOf(p)
      ensures exists name :: Installs(p, name, dest)
    {
      var name :| name in p.profiles && Survives(p, name) && Dest(name) == dest;
      assert Installs(p, name, dest);
    }
  }

  // ------------------------------------------------------------------ lists of file ids

  /** The lines of `text`, at least one. */
  function Lines(text: string): (out: seq<string>)
    ensures |out| >= 1
  {
    if text == "" then [""]
    else
      var rest := Lines(text[1..]);
      if text[0] == '\n' then [""] + rest else [[text[0]] + rest[0]] + rest[1..]
  }

  /** The trimmed lines that are not empty, in order. */
  function Ids(lines: seq<string>): seq<string> {
    if lines == [] then []
    else
      var n := |lines| - 1;
      Ids(lines[..n]) + if TrimSpace(lines[n]) == "" then [] else [TrimSpace(lines[n])]
  }

  // ------------------------------------------------------------------ file names

  /** `%02d`. */
  function Pad2(n: nat): string {
    if n < 10 then "0" + Decimal(n) else Decimal(n)
  }

  function FileName(i: nat, id: string): string {
    Pad2(i) + "-" + id + ".conf"
  }

  /** Byte order of strings, strictly. */
  predicate Less(a: string, b: string) {
    if b == "" then false
    else if a == "" then true
    else a[0] < b[0] || (a[0] == b[0] && Less(a[1..], b[1..]))
  }

  lemma LessAt(a: string, b: string, k: nat)
    requires k < |a| && k < |b| && a[..k] == b[..k] && a[k] != b[k]
    ensures Less(a, b) <==> a[k] < b[k]
  {
    if k > 0 {
      assert a[..k][0] == a[0] && b[..k][0] == b[0];
      assert a[1..][..k - 1] == a[..k][1..] && b[1..][..k - 1] == b[..k][1..];
      LessAt(a[1..], b[1..], k - 1);
    }
  }

  lemma TwoDigits(i: nat)
    requires i < 100
    ensures Pad2(i) == [('0' as int + i / 10) as char, ('0' as int + i % 10) as char]
  {
    if i >= 10 {
      assert Decimal(i / 10) == [('0' as int + i / 10) as char];
    } else {
      assert i / 10 == 0 && i % 10 == i && ('0' as int + i / 10) as char == '0';
    }
  }

  /** The generated names of a profile sort in list order exactly when it has at most 100 files:
      from the hundred and first on, "100-" sorts before "11-". */
  lemma NamesSortInListOrder(ids: seq<string>)
    ensures (forall i, j :: 0 <= i < j < |ids| ==> Less(FileName(i, ids[i]), FileName(j, ids[j]))) <==> |ids| <= 100
  {
    if |ids| <= 100 {
      forall i, j | 0 <= i < j < |ids|
        ensures Less(FileName(i, ids[i]), FileName(j, ids[j]))
      {
        TwoDigits(i);
        TwoDigits(j);
        LessAt(FileName(i, ids[i]), FileName(j, ids[j]), if i / 10 == j / 10 then 1 else 0);
      }
    } else {
      var a, b := FileName(11, ids[11]), FileName(100, ids[100]);
      assert Decimal(100) == Decimal(10) + "0" && Decimal(10) == Decimal(1) + "0";
      assert a[0] == '1' && a[1] == '1' && b[0] == '1' && b[1] == '0';
      LessAt(a, b, 1);
      assert !Less(FileName(11, ids[11]), FileName(100, ids[100]));
    }
  }

  // ------------------------------------------------------------------ safe names

  predicate Contains(s: string, t: string) {
    t <= s || (s != "" && Contains(s[1..], t))
  }

  predicate SafeName(name: string) {
    name != "" && name != "." && name != ".." && '/' !in name && '\\' !in name && !Contains(name, "..")
  }

  // ------------------------------------------------------------------ what an expansion needs

  type Blobs = map<string, string>

  /** The ids a profile blob lists. */
  function IdsOf(blobs: Blobs, hash: string): seq<string> {
    if hash in blobs then Ids(Lines(blobs[hash])) else []
  }

  ghost predicate ProfileReady(p: Pack, blobs: Blobs, name: string, hash: string) {
    && hash in blobs && IdsOf(blobs, hash) != []
    && (name in p.policies ==> p.policies[name] in blobs)
    && (forall id :: id in IdsOf(blobs, hash) ==> id in p.files && p.files[id] in blobs)
  }

  ghost predicate ProfilesReady(p: Pack, runtime: map<string, string>, blobs: Blobs) {
    forall name :: name in runtime ==> ProfileReady(p, blobs, name, runtime[name])
  }

  ghost predicate DataReady(p: Pack, blobs: Blobs) {
    forall name :: name in p.data ==> p.data[name] in blobs
  }

  ghost predicate SafeData(p: Pack) {
    forall name :: name in p.data ==> SafeName(name)
  }

  /** Everything the pack refers to is in `blobs`. */
  ghost predicate Sufficient(p: Pack, runtime: map<string, string>, blobs: Blobs) {
    ProfilesReady(p, runtime, blobs) && DataReady(p, blobs)
  }

  ghost predicate Verified(hash: string -> string, blobs: Blobs) {
    forall h :: h in blobs ==> hash(blobs[h]) == h
  }

  function ListedFiles(p: Pack, blobs: Blobs, ids: seq<string>): seq<File>
    requires forall id :: id in ids ==> id in p.files && p.files[id] in blobs
  {
    seq(|ids|, i requires 0 <= i < |ids| => File(FileName(i, ids[i]), blobs[p.files[ids[i]]]))
  }

  /** The files of one profile: its policy, then its files in list order. */
  function FilesOf(p: Pack, blobs: Blobs, name: string, ids: seq<string>): seq<File>
    requires name in p.policies ==> p.policies[name] in blobs
    requires forall id :: id in ids ==> id in p.files && p.files[id] in blobs
  {
    (if name in p.policies then [File(PolicyFile, blobs[p.policies[name]])] else [])
    + ListedFiles(p, blobs, ids)
  }

  /** `m` is what `p` describes: every text has the hash the pack names it by, and every profile
      holds its policy and then its files in list order, under their generated names. */
  ghost predicate Describes(hash: string -> string, p: Pack, runtime: map<string, string>, blobs: Blobs, m: Manifest) {
    && m.rev == p.rev && m.configHash == p.sha
    && m.data.Keys == p.data.Keys
    && (forall d :: d in p.data && d in m.data ==> hash(m.data[d]) == p.data[d])
    && m.profiles.Keys == runtime.Keys
    && (forall n :: n in runtime && n in m.profiles ==> FilesMatch(hash, p, n, IdsOf(blobs, runtime[n]), m.profiles[n]))
  }

  ghost predicate FilesMatch(hash: string -> string, p: Pack, name: string, ids: seq<string>, fs: seq<File>) {
    var off := if name in p.policies then 1 else 0;
    && |fs| == off + |ids| > off
    && (off == 1 ==> fs[0].name == PolicyFile && hash(fs[0].text) == p.policies[name])
    && (forall i :: 0 <= i < |ids| ==>
          ids[i] in p.files && fs[off + i].name == FileName(i, ids[i]) && hash(fs[off + i].text) == p.files[ids[i]])
  }

  lemma FilesOfMatch(hash: string -> string, p: Pack, blobs: Blobs, name: string, h: string)
    requires Verified(hash, blobs) && ProfileReady(p, blobs, name, h)
    ensures FilesMatch(hash, p, name, IdsOf(blobs, h), FilesOf(p, blobs, name, IdsOf(blobs, h)))
  {
    var ids := IdsOf(blobs, h);
    var off := if name in p.policies then 1 else 0;
    var fs, listed := FilesOf(p, blobs, name, ids), ListedFiles(p, blobs, ids);
    forall i | 0 <= i < |ids|
      ensures ids[i] in p.files && fs[off + i].name == FileName(i, ids[i]) && hash(fs[off + i].text) == p.files[ids[i]]
    {
      assert ids[i] in ids && fs[off + i] == listed[i];
    }
  }
}
