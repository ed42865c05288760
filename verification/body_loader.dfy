/** Loading request and response objects from the buffer, one by one and batched. The store, the
    secret source and the digest are parameters. */
module BodyLoader {
  import opened Common

  datatype Enc = Enc(alg: string, kid: string, nonce: string)

  datatype Locator = Locator(
    driver: string, store: string, key: string, unavailable: string,
    sha256: string, processedSHA256: string, truncated: bool, enc: Option<Enc>)

  datatype Body = Body(data: string, truncated: bool, unavailable: string, digest: string)

  datatype StoreError = UnknownDriver | OtherError

  datatype Reply<+T> = Ok(value: T) | Err(error: StoreError)

  /** A body store; `getMany` is absent from stores that cannot batch. */
  datatype Store = Store(
    get: (string, string, string) -> Reply<string>,
    getMany: Option<(string, string, seq<string>) -> Reply<seq<Option<string>>>>)

  /** What the loader is configured with. `decrypt` fails by answering None. */
  datatype Loader = Loader(
    store: Option<Store>, decrypt: (Enc, string) -> Option<string>, digest: string -> string)

  const Nothing := Body("", false, "", "")

  function Missing(why: string): Body {
    Body("", false, why, "")
  }

  function Wanted(loc: Locator): string {
    if loc.processedSHA256 != "" then loc.processedSHA256
    else if loc.truncated then ""
    else loc.sha256
  }

  function Checked(l: Loader, loc: Locator, raw: string): Body {
    var digest := l.digest(raw);
    if Wanted(loc) != "" && Wanted(loc) != digest then Missing("digest_mismatch")
    else Body(raw, loc.truncated, "", digest)
  }

  function Finish(l: Loader, loc: Locator, raw: string): Body {
    if loc.enc == None then Checked(l, loc, raw)
    else match l.decrypt(loc.enc.value, raw)
      case None => Missing("decrypt_failed")
      case Some(plain) => Checked(l, loc, plain)
  }

  function Load(l: Loader, at: Option<Locator>): Body {
    if at == None then Nothing
    else
      var loc := at.value;
      if loc.unavailable != "" then Missing(loc.unavailable)
      else if loc.driver == "" then Nothing
      else if l.store == None then Missing("store_unconfigured")
      else match l.store.value.get(loc.driver, loc.store, loc.key)
        case Err(UnknownDriver) => Missing("unknown_driver")
        case Err(OtherError) => Missing("store_error")
        case Ok(raw) => Finish(l, loc, raw)
  }

  /** Loading, from the locator's own fields. An object that cannot be had is unavailable for a reason:
      the locator's own, no store, an unknown driver, a store that fails, a decryption that fails, or a
      digest that is not the one the locator names. That is the digest of the processed object if it
      has one, and otherwise that of the whole object unless it was truncated. Anything else is handed
      over as decrypted, with the locator's truncation and its own digest. */
  lemma LoadDecides(l: Loader, loc: Locator)
    requires loc.unavailable == "" && loc.driver != "" && l.store.Some?
    ensures match l.store.value.get(loc.driver, loc.store, loc.key)
      case Err(UnknownDriver) => Load(l, Some(loc)) == Body("", false, "unknown_driver", "")
      case Err(OtherError) => Load(l, Some(loc)) == Body("", false, "store_error", "")
      case Ok(raw) =>
        var plain := if loc.enc.Some? then l.decrypt(loc.enc.value, raw) else Some(raw);
        if plain == None then Load(l, Some(loc)) == Body("", false, "decrypt_failed", "")
        else if Verified(l, loc, plain.value) then Load(l, Some(loc)) == Body(plain.value, loc.truncated, "", l.digest(plain.value))
        else Load(l, Some(loc)) == Body("", false, "digest_mismatch", "")
  {
  }

  /** The data has the digest the locator names, if it names one for it. */
  predicate Verified(l: Loader, loc: Locator, data: string) {
    && (loc.processedSHA256 != "" ==> l.digest(data) == loc.processedSHA256)
    && (loc.processedSHA256 == "" && loc.sha256 != "" && !loc.truncated ==> l.digest(data) == loc.sha256)
  }

  lemma LoadWithoutStore(l: Loader, loc: Locator)
    ensures Load(l, None) == Body("", false, "", "")
    ensures loc.unavailable != "" ==> Load(l, Some(loc)) == Body("", false, loc.unavailable, "")
    ensures loc.unavailable == "" && loc.driver == "" ==> Load(l, Some(loc)) == Body("", false, "", "")
    ensures loc.unavailable == "" && loc.driver != "" && l.store == None ==> Load(l, Some(loc)) == Body("", false, "store_unconfigured", "")
  {
  }

  /** A batched reply says, key by key, what single reads would say. */
  ghost predicate AgreesOn(s: Store, driver: string, store: string, keys: seq<string>)
    requires s.getMany.Some?
  {
    match s.getMany.value(driver, store, keys)
    case Err(e) => forall i :: 0 <= i < |keys| ==> s.get(driver, store, keys[i]) == Err(e)
    case Ok(raws) =>
      && |raws| == |keys|
      && (forall i :: 0 <= i < |keys| ==>
            s.get(driver, store, keys[i]) == if raws[i].Some? then Ok(raws[i].value) else Err(OtherError))
  }

  ghost predicate Agrees(s: Store) {
    s.getMany.Some? ==> forall driver, store, keys :: |keys| >= 2 ==> AgreesOn(s, driver, store, keys)
  }

  /** A store reads what the locator names. */
  predicate Placed(at: Option<Locator>) {
    at.Some? && at.value.unavailable == "" && at.value.driver != ""
  }

  /** The batch: the locators at `at`, in order, all read from one driver and store. */
  ghost predicate Batch(locs: seq<Option<Locator>>, at: seq<nat>, keys: seq<string>, driver: string, store: string) {
    && |at| == |keys|
    && (forall n :: 0 <= n < |at| ==>
          && at[n] < |locs| && Placed(locs[at[n]]) && locs[at[n]].value.key == keys[n]
          && locs[at[n]].value.driver == driver && locs[at[n]].value.store == store)
    && (forall n, m :: 0 <= n < m < |at| ==> at[n] < at[m])
  }

  /** Batched loading is loading one by one, over any mixture of locators. */
  method LoadMany(l: Loader, locs: seq<Option<Locator>>) returns (out: seq<Body>)
    requires l.store.Some? ==> Agrees(l.store.value)
    ensures |out| == |locs|
    ensures forall i :: 0 <= i < |locs| ==> out[i] == Load(l, locs[i])
  {
    out := seq(|locs|, _ => Nothing);
    if l.store == None || l.store.value.getMany == None {
      for i := 0 to |locs|
        invariant |out| == |locs|
        invariant forall j :: 0 <= j < i ==> out[j] == Load(l, locs[j])
      {
        out := out[i := Load(l, locs[i])];
      }
      return;
    }
    var at, keys, driver, store;
    out, at, keys, driver, store := Collect(l, locs);
    if |keys| < 2 {
      out := LoadEach(l, locs, at, out);
      return;
    }
    assert AgreesOn(l.store.value, driver, store, keys);
    var raws := l.store.value.getMany.value(driver, store, keys);
    out := Fill(l, locs, at, keys, driver, store, raws, out);
  }

  /** Finds the batch, loading everything else on the way. */
  method Collect(l: Loader, locs: seq<Option<Locator>>)
    returns (out: seq<Body>, at: seq<nat>, keys: seq<string>, driver: string, store: string)
    ensures |out| == |locs| && Batch(locs, at, keys, driver, store)
    ensures forall j :: 0 <= j < |locs| && j !in at ==> out[j] == Load(l, locs[j])
  {
    out := seq(|locs|, _ => Nothing);
    keys, at := [], [];
    var batched := false;
    driver, store := "", "";
    for i := 0 to |locs|
      invariant |out| == |locs|
      invariant Batch(locs, at, keys, driver, store) && (forall n :: 0 <= n < |at| ==> at[n] < i)
      invariant batched <==> at != []
      invariant forall j :: 0 <= j < i && j !in at ==> out[j] == Load(l, locs[j])
    {
      var loc := locs[i];
      if !Placed(loc) || (batched && (loc.value.driver != driver || loc.value.store != store)) {
        out := out[i := Load(l, loc)];
      } else {
        driver, store, batched := loc.value.driver, loc.value.store, true;
        keys := keys + [loc.value.key];
        ghost var before := at;
        at := at + [i];
        assert forall j :: j in at <==> j in before || j == i;
      }
    }
  }

  method LoadEach(l: Loader, locs: seq<Option<Locator>>, at: seq<nat>, start: seq<Body>) returns (out: seq<Body>)
    requires |start| == |locs| && forall n :: 0 <= n < |at| ==> at[n] < |locs|
    requires forall j :: 0 <= j < |locs| && j !in at ==> start[j] == Load(l, locs[j])
    ensures |out| == |locs| && forall j :: 0 <= j < |locs| ==> out[j] == Load(l, locs[j])
  {
    out := start;
    for n := 0 to |at|
      invariant |out| == |locs|
      invariant forall j :: 0 <= j < |locs| && j !in at[n..] ==> out[j] == Load(l, locs[j])
    {
      assert at[n..] == [at[n]] + at[n + 1..];
      out := out[at[n] := Load(l, locs[at[n]])];
    }
  }

  /** Puts the batch's answers where its locators stand. */
  method Fill(l: Loader, locs: seq<Option<Locator>>, at: seq<nat>, keys: seq<string>, driver: string, store: string,
      raws: Reply<seq<Option<string>>>, start: seq<Body>)
    returns (out: seq<Body>)
    requires l.store.Some? && l.store.value.getMany.Some? && |start| == |locs|
    requires Batch(locs, at, keys, driver, store) && AgreesOn(l.store.value, driver, store, keys)
    requires raws == l.store.value.getMany.value(driver, store, keys)
    requires forall j :: 0 <= j < |locs| && j !in at ==> start[j] == Load(l, locs[j])
    ensures |out| == |locs| && forall j :: 0 <= j < |locs| ==> out[j] == Load(l, locs[j])
  {
    out := start;
    for n := 0 to |at|
      invariant |out| == |locs|
      invariant forall j :: 0 <= j < |locs| && j !in at[n..] ==> out[j] == Load(l, locs[j])
    {
      assert at[n..] == [at[n]] + at[n + 1..];
      var body :=
        match raws
        case Err(UnknownDriver) => Missing("unknown_driver")
        case Err(OtherError) => Missing("store_error")
        case Ok(values) => if values[n] == None then Missing("store_error") else Finish(l, locs[at[n]].value, values[n].value);
      assert l.store.value.get(driver, store, keys[n]) == match raws
        case Err(e) => Err(e)
        case Ok(values) => if values[n].Some? then Ok(values[n].value) else Err(OtherError);
      out := out[at[n] := body];
    }
  }
}
