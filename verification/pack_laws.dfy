/** The names a pack goes by: which profiles it installs under which names, where its blobs are kept,
    what its files are called, and what of it the written tree holds. */
module PackLaws {
  import opened Common
  import opened PackSpec
  import opened RolloutSite
  import opened Text

  /** A profile is installed under a name iff the pack overrides nothing there: from `pack-` and the name
      if the pack has no profile of that very name, or from the name itself if that is neither a volume's
      nor starts with `pack-`. */
  lemma RuntimeNames(p: Pack, dest: string)
    ensures dest in RuntimeOf(p) <==> FromPack(p, dest) || AsItIs(p, dest)
    ensures FromPack(p, dest) ==> dest in RuntimeOf(p) && RuntimeOf(p)[dest] == p.profiles["pack-" + dest]
    ensures AsItIs(p, dest) ==> dest in RuntimeOf(p) && RuntimeOf(p)[dest] == p.profiles[dest]
  {
    RuntimeIs(p);
    var packed := "pack-" + dest;
    assert packed[..5] == "pack-" && packed[5..] == dest;
    if FromPack(p, dest) {
      assert !(VolumePrefix <= packed) by {
        assert packed[0] == 'p' && VolumePrefix[0] == 'c';
      }
      assert Dest(packed) == dest && Survives(p, packed);
    }
    if AsItIs(p, dest) {
      assert Dest(dest) == dest && Survives(p, dest);
    }
    if dest in RuntimeOf(p) {
      var name :| Installs(p, name, dest);
      assert PackPrefix <= name ==> name == packed;
    }
  }

  predicate FromPack(p: Pack, dest: string) {
    "pack-" + dest in p.profiles && dest !in p.profiles
  }

  predicate AsItIs(p: Pack, dest: string) {
    dest in p.profiles && !("crs-prof-" <= dest) && !("pack-" <= dest)
  }

  /** A blob is kept under the pack's prefix and its digest, whether or not that names its algorithm. */
  lemma BlobKeys(p: Pack, digest: string)
    ensures BlobKey(p, "sha256:" + digest) == p.prefix + digest
    ensures !("sha256:" <= digest) ==> BlobKey(p, digest) == p.prefix + digest
  {
    var hash := "sha256:" + digest;
    assert HashPrefix <= hash && hash[7..] == digest;
  }

  lemma PadIsDigits(i: nat)
    ensures AllDigits(Pad2(i)) && Digits(Pad2(i)) == i
  {
    DecimalDigits(i);
    if i < 10 {
      assert Decimal(i) == Pad2(i)[1..] && |Decimal(i)| == 1;
      assert Pad2(i)[..1][..0] == "" && Pad2(i)[..1] == "0";
      assert Digits("0") == 0;
    }
  }

  /** The names generated for the files of a profile never collide, with each other or with its policy. */
  lemma FileNamesDiffer(i: nat, a: string, j: nat, b: string)
    ensures FileName(i, a) == FileName(j, b) <==> i == j && a == b
    ensures FileName(i, a) != PolicyFile
  {
    var x, y := FileName(i, a), FileName(j, b);
    PadIsDigits(i);
    PadIsDigits(j);
    assert x[0] == Pad2(i)[0] && IsDigit(x[0]);
    if x == y {
      IndexOfFirst(x, '-', |Pad2(i)|);
      IndexOfFirst(y, '-', |Pad2(j)|);
      assert x[..|Pad2(i)|] == Pad2(i) && y[..|Pad2(j)|] == Pad2(j);
      assert x[|Pad2(i)| + 1..|x| - 5] == a && y[|Pad2(j)| + 1..|y| - 5] == b;
    }
  }

  lemma {:induction false} ContainsMeans(s: string, t: string)
    ensures Contains(s, t) <==> exists k :: 0 <= k <= |s| && t <= s[k..]
  {
    if t <= s {
      assert s[0..] == s;
    } else if s == "" {
      assert forall k :: 0 <= k <= |s| ==> s[k..] == s;
    } else {
      ContainsMeans(s[1..], t);
      if k :| 0 <= k <= |s[1..]| && t <= s[1..][k..] {
        assert s[1..][k..] == s[k + 1..];
      }
      if k :| 0 <= k <= |s| && t <= s[k..] {
        assert k > 0 && s[k..] == s[1..][k - 1..];
      }
    }
  }

  /** A safe name stays in its directory: it is not empty, has no separator, and no two dots in a row
      stand anywhere in it. */
  lemma SafeNames(name: string)
    ensures SafeName(name) <==>
      && name != "" && name != "." && '/' !in name && '\\' !in name
      && forall k :: 0 <= k < |name| - 1 ==> !(name[k] == '.' && name[k + 1] == '.')
  {
    ContainsMeans(name, "..");
    if k :| 0 <= k < |name| - 1 && name[k] == '.' && name[k + 1] == '.' {
      assert name[k..][0] == '.' && name[k..][1] == '.';
      assert ".." <= name[k..];
    }
    if k :| 0 <= k <= |name| && ".." <= name[k..] {
      assert name[k..][0] == '.' && name[k..][1] == '.';
    }
  }

  // ------------------------------------------------------------------ the written tree

  ghost predicate NamesDiffer(fs: seq<File>) {
    forall i, j :: 0 <= i < j < |fs| ==> fs[i].name != fs[j].name
  }

  /** Files with different names all end up in the directory. */
  lemma {:induction false} OverlayHolds(base: map<string, string>, fs: seq<File>, name: string, rewrite: Rewrite, i: nat)
    requires NamesDiffer(fs) && i < |fs|
    ensures var out := Overlay(base, fs, name, rewrite);
      fs[i].name in out && out[fs[i].name] == rewrite(fs[i].text, name)
  {
    if i < |fs| - 1 {
      OverlayHolds(base, fs[..|fs| - 1], name, rewrite, i);
    }
  }

  /** They leave alone what has another name. */
  lemma {:induction false} OverlayKeeps(base: map<string, string>, fs: seq<File>, name: string, rewrite: Rewrite, k: string)
    requires k in base && forall i :: 0 <= i < |fs| ==> fs[i].name != k
    ensures var out := Overlay(base, fs, name, rewrite); k in out && out[k] == base[k]
  {
    if fs != [] {
      OverlayKeeps(base, fs[..|fs| - 1], name, rewrite, k);
    }
  }

  /** The name of a profile's i-th file. */
  function NameAt(policies: nat, ids: seq<string>, i: nat): string
    requires i < policies + |ids|
  {
    if i < policies then PolicyFile else FileName(i - policies, ids[i - policies])
  }

  lemma MatchedNames(hash: string -> string, p: Pack, name: string, ids: seq<string>, fs: seq<File>) returns (policies: nat)
    requires FilesMatch(hash, p, name, ids, fs)
    ensures policies <= 1 && |fs| == policies + |ids|
    ensures forall i: nat :: i < |fs| ==> fs[i].name == NameAt(policies, ids, i)
  {
    policies := if name in p.policies then 1 else 0;
    assert forall i :: 0 <= i < |ids| ==> fs[policies + i].name == FileName(i, ids[i]);
  }

  lemma NamesAtDiffer(policies: nat, ids: seq<string>, i: nat, j: nat)
    requires policies <= 1 && i < j < policies + |ids|
    ensures NameAt(policies, ids, i) != NameAt(policies, ids, j)
  {
    var b := j - policies;
    FileNamesDiffer(b, ids[b], if i < policies then b else i - policies, if i < policies then ids[b] else ids[i - policies]);
  }

  lemma MatchedDiffer(hash: string -> string, p: Pack, name: string, ids: seq<string>, fs: seq<File>)
    requires FilesMatch(hash, p, name, ids, fs)
    ensures NamesDiffer(fs)
  {
    var policies := MatchedNames(hash, p, name, ids, fs);
    forall i, j | 0 <= i < j < |fs|
      ensures fs[i].name != fs[j].name
    {
      NamesAtDiffer(policies, ids, i, j);
    }
  }

  /** The tree of an expanded pack holds, in the directory of each installed profile, every file listed
      for it and its policy, none overwritten by another, and every data file they leave alone. */
  lemma TreeHoldsPack(hash: string -> string, p: Pack, blobs: Blobs, m: Manifest, rewrite: Rewrite, name: string)
    requires Describes(hash, p, RuntimeOf(p), blobs, m) && name in RuntimeOf(p)
    ensures name in m.profiles && name in TreeOf(m, rewrite)
    ensures var fs, dir := m.profiles[name], TreeOf(m, rewrite)[name];
      && (forall i :: 0 <= i < |fs| ==> fs[i].name in dir && dir[fs[i].name] == rewrite(fs[i].text, name))
      && (forall k :: k in m.data && (forall i :: 0 <= i < |fs| ==> fs[i].name != k) ==> k in dir && dir[k] == m.data[k])
  {
    var fs := m.profiles[name];
    MatchedDiffer(hash, p, name, IdsOf(blobs, RuntimeOf(p)[name]), fs);
    forall i | 0 <= i < |fs|
      ensures fs[i].name in TreeOf(m, rewrite)[name] && TreeOf(m, rewrite)[name][fs[i].name] == rewrite(fs[i].text, name)
    {
      OverlayHolds(m.data, fs, name, rewrite, i);
    }
    forall k | k in m.data && forall i :: 0 <= i < |fs| ==> fs[i].name != k
      ensures k in TreeOf(m, rewrite)[name] && TreeOf(m, rewrite)[name][k] == m.data[k]
    {
      OverlayKeeps(m.data, fs, name, rewrite, k);
    }
  }
}
