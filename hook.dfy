/** The default pre-receive hook (pre-receive-hook.js): every commit and
    tag in the pushed pack must carry a signature made with one of the
    public keys that the key lookup finds for its author's (or tagger's)
    email. The object store, the signature check and the two GitHub
    requests are oracles. The script's lines of console output are kept
    as values of `Line`; the ways it stops without calling `done` are
    values of `Failure`. */
module PreReceiveHook {
  import opened Common
  import opened KeyLookup

  type Oid = string

  datatype GitObject = CommitObject(authorEmail: string) | TagObject(taggerEmail: string) | TreeObject | BlobObject

  /** Only commits and tags are checked. */
  predicate Signable(obj: GitObject) {
    obj.CommitObject? || obj.TagObject?
  }

  /** `author.email` for a commit, `tagger.email` for a tag */
  function EmailOf(obj: GitObject): string
    requires Signable(obj)
  {
    if obj.CommitObject? then obj.authorEmail else obj.taggerEmail
  }

  function KindName(obj: GitObject): string
    requires Signable(obj)
  {
    if obj.CommitObject? then "commit" else "tag"
  }

  /** What `git.verify` does with one key: resolves to the signer's
      identity, resolves to `false`, or throws. */
  datatype Verdict = Signed(identity: string) | NotSigned | NoSignatureError(message: string) | OtherError(message: string)

  /** Which form of the key loop runs: the script's own, which walks the
      cached array while demoting in it, or the corrected one, which walks
      a copy of the list. */
  datatype KeyLoop = AsWritten | Corrected

  /** What the script calls out to, and the form of its key loop */
  datatype Oracles = Oracles(
    readObject: Oid -> Result<GitObject, string>,
    verify: (Oid, Key) -> Verdict,
    search: string -> Result<SearchReply, string>,
    keysOf: string -> Result<seq<Key>, string>,
    loop: KeyLoop)

  /** The script's `console.log` lines */
  datatype Line =
    | Greeting                                           // "Wish me luck!"
    | VerifyingObjects                                   // "\nVerifying objects...\n"
    | Counter(index: nat, count: nat)                    // "\rVerifying object <i>/<n>"
    | Checking(kind: string, abbr: string, email: string) // "\nVerifying <type> <abbr> by <email>: "
    | NoKeysFound
    | NoSignature
    | SignedWith(identity: string)
    | NoKeysMatched
    | VerificationComplete                               // printed just before `done()`

  /** Why the script stopped without calling `done` */
  datatype Failure =
    | ReadFailed(oid: Oid, message: string)
    | LookupFailed(oid: Oid, error: LookupError)
    | NoKeys(oid: Oid, email: string)
    | Unsigned(oid: Oid, message: string)
    | VerifyFailed(oid: Oid, message: string)
    | NoKeyMatched(oid: Oid, email: string)

  datatype Outcome = Done | Stopped(failure: Failure)

  // ---------------------------------------------------------------------
  // The key loop

  datatype KeyResult = Matched(identity: string) | Exhausted | Threw(noSignature: bool, message: string)

  /** The `verify` outcome that ends a loop with `Threw` */
  function ThrownBy(r: KeyResult): Verdict
    requires r.Threw?
  {
    if r.noSignature then NoSignatureError(r.message) else OtherError(r.message)
  }

  /** The result of a key loop, the cache after it, and the keys handed to
      `verify`, in order. */
  datatype KeySearch = KeySearch(result: KeyResult, cache: map<string, seq<Key>>, tried: seq<Key>)

  /** The key loop as the script runs it: `for (const key of keys)` walks the
      cached array itself by position while `demote` rotates that array, so
      position `idx` is read from the current list. */
  function LiveSearch(cache: map<string, seq<Key>>, email: string, oid: Oid, idx: nat,
                      verify: (Oid, Key) -> Verdict): (s: KeySearch)
    requires email in cache
    ensures s.result.Exhausted? || s.tried != []
    decreases |cache[email]| - idx
  {
    var live := cache[email];
    if idx >= |live| then KeySearch(Exhausted, cache, [])
    else
      var key := live[idx];
      match verify(oid, key)
      case Signed(id) => KeySearch(Matched(id), cache, [key])
      case NotSigned =>
        var rest := LiveSearch(cache[email := Demoted(live, key)], email, oid, idx + 1, verify);
        rest.(tried := [key] + rest.tried)
      case NoSignatureError(m) => KeySearch(Threw(true, m), cache, [key])
      case OtherError(m) => KeySearch(Threw(false, m), cache, [key])
  }

  /** Demote each of `keys` in turn. */
  function DemoteAll(list: seq<Key>, keys: seq<Key>): (r: seq<Key>)
    ensures |r| == |list|
    decreases |keys|
  {
    if keys == [] then list else DemoteAll(Demoted(list, keys[0]), keys[1..])
  }

  /** The keys that `verify` turned down: all that were tried, except the
      last when it ended the loop. */
  function Rejected(s: KeySearch): seq<Key> {
    if s.result.Exhausted? || s.tried == [] then s.tried else s.tried[..|s.tried| - 1]
  }

  /** The key loop only rotates the email's own list: no key is lost or
      duplicated and no other email's list changes. */
  lemma {:induction false} LiveSearchKeepsKeys(cache: map<string, seq<Key>>, email: string, oid: Oid, idx: nat,
                                               verify: (Oid, Key) -> Verdict)
    requires email in cache
    ensures var s := LiveSearch(cache, email, oid, idx, verify);
            && email in s.cache
            && s.cache == cache[email := s.cache[email]]
            && multiset(s.cache[email]) == multiset(cache[email])
    decreases |cache[email]| - idx
  {
    var live := cache[email];
    if idx < |live| && verify(oid, live[idx]) == NotSigned {
      var key := live[idx];
      var next := cache[email := Demoted(live, key)];
      LiveSearchKeepsKeys(next, email, oid, idx + 1, verify);
      DemotedKeepsKeys(live, key);
      var rest := LiveSearch(next, email, oid, idx + 1, verify);
      assert LiveSearch(cache, email, oid, idx, verify).cache == rest.cache;
    }
  }

  /** Every key that `verify` turned down is demoted, in the order tried. */
  lemma {:induction false} LiveSearchDemotesRejected(cache: map<string, seq<Key>>, email: string, oid: Oid, idx: nat,
                                                     verify: (Oid, Key) -> Verdict)
    requires email in cache
    ensures var s := LiveSearch(cache, email, oid, idx, verify);
            email in s.cache && s.cache[email] == DemoteAll(cache[email], Rejected(s))
    decreases |cache[email]| - idx
  {
    var live := cache[email];
    var s := LiveSearch(cache, email, oid, idx, verify);
    if idx < |live| && verify(oid, live[idx]) == NotSigned {
      var key := live[idx];
      var next := cache[email := Demoted(live, key)];
      var rest := LiveSearch(next, email, oid, idx + 1, verify);
      LiveSearchDemotesRejected(next, email, oid, idx + 1, verify);
      assert s == rest.(tried := [key] + rest.tried);
      RejectedCons(rest, key);
      DemoteAllCons(live, key, Rejected(rest));
    } else {
      assert s.cache == cache && Rejected(s) == [];
    }
  }

  lemma RejectedCons(rest: KeySearch, key: Key)
    requires rest.result.Exhausted? || rest.tried != []
    ensures Rejected(rest.(tried := [key] + rest.tried)) == [key] + Rejected(rest)
  {
    var s := rest.(tried := [key] + rest.tried);
    if !rest.result.Exhausted? {
      assert s.tried[..|s.tried| - 1] == [key] + rest.tried[..|rest.tried| - 1];
    }
  }

  lemma DemoteAllCons(list: seq<Key>, key: Key, keys: seq<Key>)
    ensures DemoteAll(list, [key] + keys) == DemoteAll(Demoted(list, key), keys)
  {
    assert ([key] + keys)[0] == key && ([key] + keys)[1..] == keys;
  }

  /** At most one attempt per remaining position, each with a key of the list. */
  lemma {:induction false} LiveSearchTriesListedKeys(cache: map<string, seq<Key>>, email: string, oid: Oid, idx: nat,
                                                     verify: (Oid, Key) -> Verdict)
    requires email in cache
    ensures var s := LiveSearch(cache, email, oid, idx, verify);
            && (idx <= |cache[email]| ==> |s.tried| <= |cache[email]| - idx)
            && (forall k :: k in s.tried ==> k in cache[email])
    decreases |cache[email]| - idx
  {
    var live := cache[email];
    if idx < |live| && verify(oid, live[idx]) == NotSigned {
      var key := live[idx];
      var next := cache[email := Demoted(live, key)];
      LiveSearchTriesListedKeys(next, email, oid, idx + 1, verify);
      DemotedIsRotation(live, key);
      assert forall k :: k in Demoted(live, key) ==> k in live by {
        assert forall k :: k in Demoted(live, key) ==> k in multiset(Demoted(live, key));
      }
      var rest := LiveSearch(next, email, oid, idx + 1, verify);
      assert LiveSearch(cache, email, oid, idx, verify) == rest.(tried := [key] + rest.tried);
    }
  }

  /** Every key but the last one tried resolved to `false`, the loop is
      exhausted exactly when the last one did too, and a match names the
      identity of the last key tried. */
  lemma {:induction false} LiveSearchVerdicts(cache: map<string, seq<Key>>, email: string, oid: Oid, idx: nat,
                                              verify: (Oid, Key) -> Verdict)
    requires email in cache
    ensures var s := LiveSearch(cache, email, oid, idx, verify);
            && (forall k :: k in Rejected(s) ==> verify(oid, k) == NotSigned)
            && (s.result.Exhausted? <==> s.tried == Rejected(s))
            && (s.result.Matched? ==> s.tried != [] && verify(oid, s.tried[|s.tried| - 1]) == Signed(s.result.identity))
            && (s.result.Threw? ==> s.tried != [] && verify(oid, s.tried[|s.tried| - 1]) == ThrownBy(s.result))
    decreases |cache[email]| - idx
  {
    var live := cache[email];
    if idx < |live| && verify(oid, live[idx]) == NotSigned {
      var key := live[idx];
      var next := cache[email := Demoted(live, key)];
      LiveSearchVerdicts(next, email, oid, idx + 1, verify);
      var rest := LiveSearch(next, email, oid, idx + 1, verify);
      var s := rest.(tried := [key] + rest.tried);
      assert LiveSearch(cache, email, oid, idx, verify) == s;
      RejectedCons(rest, key);
      if !s.result.Exhausted? {
        assert s.tried[|s.tried| - 1] == rest.tried[|rest.tried| - 1];
      }
    }
  }

  /** What the loop as written does guarantee: it accepts only with a key of
      the email's list that signed the object, and that key is still cached
      afterwards; a thrown result was raised by a key of the list. */
  lemma LiveSearchPolicy(cache: map<string, seq<Key>>, email: string, oid: Oid, verify: (Oid, Key) -> Verdict)
    requires email in cache
    ensures var s := LiveSearch(cache, email, oid, 0, verify);
            && (s.result.Matched? ==> email in s.cache && exists k :: k in cache[email] && k in s.cache[email] && verify(oid, k) == Signed(s.result.identity))
            && (s.result.Threw? ==> exists k :: k in cache[email] && verify(oid, k) == ThrownBy(s.result))
  {
    var s := LiveSearch(cache, email, oid, 0, verify);
    LiveSearchVerdicts(cache, email, oid, 0, verify);
    LiveSearchTriesListedKeys(cache, email, oid, 0, verify);
    LiveSearchKeepsKeys(cache, email, oid, 0, verify);
    if !s.result.Exhausted? {
      var k := s.tried[|s.tried| - 1];
      assert k in s.tried;
      assert k in multiset(cache[email]);
      assert k in s.cache[email];
    }
  }

  /** FINDING, as written: with keys [A, B, C] of which only B signed the
      object, the loop tries A, demotes it (the list becomes [B, C, A]),
      moves on to position 1 and so skips B; C is then tried twice and the
      object is rejected although a matching key was cached. */
  lemma LiveSearchSkipsAKey()
    ensures var verify := (o: Oid, k: Key) => if k == "B" then Signed("signer") else NotSigned;
            var s := LiveSearch(map["dev@example.com" := ["A", "B", "C"]], "dev@example.com", "0a1b2c3", 0, verify);
            s.result == Exhausted && s.tried == ["A", "C", "C"]
  {
    var verify := (o: Oid, k: Key) => if k == "B" then Signed("signer") else NotSigned;
    var email := "dev@example.com";
    assert "A" != "B" && "C" != "B";
    SkipExampleDemotions();
    var c0 := map[email := ["A", "B", "C"]];
    var c1 := map[email := ["B", "C", "A"]];
    var c2 := map[email := ["B", "A", "C"]];
    assert c0[email := Demoted(["A", "B", "C"], "A")] == c1;
    assert c1[email := Demoted(["B", "C", "A"], "C")] == c2;
    assert c2[email := Demoted(["B", "A", "C"], "C")] == c2;
    assert LiveSearch(c2, email, "0a1b2c3", 3, verify) == KeySearch(Exhausted, c2, []);
    assert LiveSearch(c2, email, "0a1b2c3", 2, verify).tried == ["C"];
    assert LiveSearch(c1, email, "0a1b2c3", 1, verify).tried == ["C", "C"];
  }

  /** The three demotions of that example */
  lemma SkipExampleDemotions()
    ensures Demoted(["A", "B", "C"], "A") == ["B", "C", "A"]
    ensures Demoted(["B", "C", "A"], "C") == ["B", "A", "C"]
    ensures Demoted(["B", "A", "C"], "C") == ["B", "A", "C"]
  {
    assert "A" != "B" && "C" != "B" && "A" != "C";
    assert RemoveFirst(["A", "B", "C"], "A") == ["B", "C"];
    assert ["B", "C", "A"][1..] == ["C", "A"];
    assert RemoveFirst(["C", "A"], "C") == ["A"];
    assert RemoveFirst(["B", "C", "A"], "C") == ["B", "A"];
    assert ["B", "A", "C"][1..] == ["A", "C"];
    assert ["A", "C"][1..] == ["C"];
    assert RemoveFirst(["C"], "C") == [];
    assert RemoveFirst(["A", "C"], "C") == ["A"];
    assert RemoveFirst(["B", "A", "C"], "C") == ["B", "A"];
  }

  /** CORRECTED: the loop walks a snapshot of the list taken before the
      first demotion, so each key is tried exactly once, in trust order. */
  function SnapshotSearch(cache: map<string, seq<Key>>, email: string, oid: Oid, keys: seq<Key>,
                          verify: (Oid, Key) -> Verdict): (s: KeySearch)
    requires email in cache && (keys != [] ==> |cache[email]| > 0)
    ensures |s.tried| <= |keys| && s.tried == keys[..|s.tried|]
    ensures s.result.Exhausted? ==> s.tried == keys
    ensures forall j :: 0 <= j < |s.tried| - 1 ==> verify(oid, s.tried[j]) == NotSigned
    ensures s.result.Exhausted? ==> forall k :: k in keys ==> verify(oid, k) == NotSigned
    ensures s.result.Exhausted? || s.tried != []
    ensures s.result.Matched? ==> verify(oid, s.tried[|s.tried| - 1]) == Signed(s.result.identity)
    ensures s.result.Threw? ==> s.tried != [] && verify(oid, s.tried[|s.tried| - 1]) == ThrownBy(s.result)
    decreases |keys|
  {
    if keys == [] then KeySearch(Exhausted, cache, [])
    else
      var key := keys[0];
      match verify(oid, key)
      case Signed(id) => KeySearch(Matched(id), cache, [key])
      case NotSigned =>
        var rest := SnapshotSearch(cache[email := Demoted(cache[email], key)], email, oid, keys[1..], verify);
        assert rest.tried == keys[1..][..|rest.tried|];
        rest.(tried := [key] + rest.tried)
      case NoSignatureError(m) => KeySearch(Threw(true, m), cache, [key])
      case OtherError(m) => KeySearch(Threw(false, m), cache, [key])
  }

  /** The corrected loop, too, only rotates the email's own list. */
  lemma {:induction false} SnapshotKeepsKeys(cache: map<string, seq<Key>>, email: string, oid: Oid, keys: seq<Key>,
                                             verify: (Oid, Key) -> Verdict)
    requires email in cache && (keys != [] ==> |cache[email]| > 0)
    ensures var s := SnapshotSearch(cache, email, oid, keys, verify);
            && email in s.cache
            && s.cache == cache[email := s.cache[email]]
            && multiset(s.cache[email]) == multiset(cache[email])
    decreases |keys|
  {
    if keys != [] && verify(oid, keys[0]) == NotSigned {
      var key := keys[0];
      var next := cache[email := Demoted(cache[email], key)];
      SnapshotKeepsKeys(next, email, oid, keys[1..], verify);
      DemotedKeepsKeys(cache[email], key);
      var rest := SnapshotSearch(next, email, oid, keys[1..], verify);
      assert SnapshotSearch(cache, email, oid, keys, verify).cache == rest.cache;
    }
  }

  /** The corrected loop demotes every key that `verify` turned down, in
      the order tried. */
  lemma {:induction false} SnapshotDemotesRejected(cache: map<string, seq<Key>>, email: string, oid: Oid, keys: seq<Key>,
                                                   verify: (Oid, Key) -> Verdict)
    requires email in cache && (keys != [] ==> |cache[email]| > 0)
    ensures var s := SnapshotSearch(cache, email, oid, keys, verify);
            email in s.cache && s.cache[email] == DemoteAll(cache[email], Rejected(s))
    decreases |keys|
  {
    var s := SnapshotSearch(cache, email, oid, keys, verify);
    if keys != [] && verify(oid, keys[0]) == NotSigned {
      var key := keys[0];
      var next := cache[email := Demoted(cache[email], key)];
      var rest := SnapshotSearch(next, email, oid, keys[1..], verify);
      SnapshotDemotesRejected(next, email, oid, keys[1..], verify);
      assert s == rest.(tried := [key] + rest.tried);
      RejectedCons(rest, key);
      DemoteAllCons(cache[email], key, Rejected(rest));
    } else {
      assert s.cache == cache && Rejected(s) == [];
    }
  }

  /** The corrected loop finds the first key that signed the object, when
      every key before it resolves to `false`. */
  lemma {:induction false} SnapshotFindsSigningKey(cache: map<string, seq<Key>>, email: string, oid: Oid,
                                                   keys: seq<Key>, verify: (Oid, Key) -> Verdict, j: nat)
    requires email in cache && |cache[email]| > 0
    requires j < |keys| && verify(oid, keys[j]).Signed?
    requires forall i :: 0 <= i < j ==> verify(oid, keys[i]) == NotSigned
    ensures var s := SnapshotSearch(cache, email, oid, keys, verify);
            s.result == Matched(verify(oid, keys[j]).identity) && s.tried == keys[..j + 1]
    decreases j
  {
    if j > 0 {
      var next := cache[email := Demoted(cache[email], keys[0])];
      assert verify(oid, keys[0]) == NotSigned;
      SnapshotFindsSigningKey(next, email, oid, keys[1..], verify, j - 1);
      assert keys[1..][..j] == keys[1..j + 1];
    }
  }

  /** On the list of the finding the corrected loop accepts the object. */
  lemma SnapshotAcceptsSkippedKey()
    ensures var verify := (o: Oid, k: Key) => if k == "B" then Signed("signer") else NotSigned;
            var cache := map["dev@example.com" := ["A", "B", "C"]];
            SnapshotSearch(cache, "dev@example.com", "0a1b2c3", cache["dev@example.com"], verify).result == Matched("signer")
  {
    var verify := (o: Oid, k: Key) => if k == "B" then Signed("signer") else NotSigned;
    var cache := map["dev@example.com" := ["A", "B", "C"]];
    assert "A" != "B";
    SnapshotFindsSigningKey(cache, "dev@example.com", "0a1b2c3", ["A", "B", "C"], verify, 1);
  }

  /** The key loop of the script as written, over the shared cache: `keys`
      is the array the lookup returned, which is `cache[email]` itself. */
  method TryKeys(cache: KeyCache, email: string, oid: Oid, verify: (Oid, Key) -> Verdict)
    returns (r: KeyResult)
    requires email in cache.entries
    modifies cache
    ensures var s := LiveSearch(old(cache.entries), email, oid, 0, verify);
            r == s.result && cache.entries == s.cache
  {
    var idx := 0;
    while idx < |cache.entries[email]|
      invariant email in cache.entries
      invariant var s0 := LiveSearch(old(cache.entries), email, oid, 0, verify);
                var s := LiveSearch(cache.entries, email, oid, idx, verify);
                s0.result == s.result && s0.cache == s.cache
      decreases |cache.entries[email]| - idx
    {
      var key := cache.entries[email][idx];
      match verify(oid, key) {
        case Signed(id) =>
          return Matched(id);
        case NotSigned =>
          cache.Demote(email, key);
        case NoSignatureError(m) =>
          return Threw(true, m);
        case OtherError(m) =>
          return Threw(false, m);
      }
      idx := idx + 1;
    }
    return Exhausted;
  }

  /** The corrected key loop: iterates a copy of the list, demoting in the
      shared cache as the script does. */
  method TryKeysSnapshot(cache: KeyCache, email: string, oid: Oid, verify: (Oid, Key) -> Verdict)
    returns (r: KeyResult)
    requires email in cache.entries
    modifies cache
    ensures var s := SnapshotSearch(old(cache.entries), email, oid, old(cache.entries)[email], verify);
            r == s.result && cache.entries == s.cache
  {
    var keys := cache.entries[email];
    var idx := 0;
    while idx < |keys|
      invariant idx <= |keys|
      invariant email in cache.entries && |cache.entries[email]| == |keys|
      invariant var s0 := SnapshotSearch(old(cache.entries), email, oid, keys, verify);
                var s := SnapshotSearch(cache.entries, email, oid, keys[idx..], verify);
                s0.result == s.result && s0.cache == s.cache
    {
      var key := keys[idx];
      assert keys[idx..][0] == key && keys[idx..][1..] == keys[idx + 1..];
      match verify(oid, key) {
        case Signed(id) =>
          return Matched(id);
        case NotSigned =>
          cache.Demote(email, key);
        case NoSignatureError(m) =>
          return Threw(true, m);
        case OtherError(m) =>
          return Threw(false, m);
      }
      idx := idx + 1;
    }
    return Exhausted;
  }

  /** The key loop over the email's cached keys, in the form `loop` names */
  function KeyLoopSearch(loop: KeyLoop, cache: map<string, seq<Key>>, email: string, oid: Oid,
                         verify: (Oid, Key) -> Verdict): KeySearch
    requires email in cache
  {
    match loop
    case AsWritten => LiveSearch(cache, email, oid, 0, verify)
    case Corrected => SnapshotSearch(cache, email, oid, cache[email], verify)
  }

  /** Either form only rotates the email's own list. */
  lemma KeyLoopKeepsKeys(loop: KeyLoop, cache: map<string, seq<Key>>, email: string, oid: Oid,
                         verify: (Oid, Key) -> Verdict)
    requires email in cache
    ensures var s := KeyLoopSearch(loop, cache, email, oid, verify);
            && email in s.cache
            && s.cache == cache[email := s.cache[email]]
            && multiset(s.cache[email]) == multiset(cache[email])
  {
    match loop
    case AsWritten => LiveSearchKeepsKeys(cache, email, oid, 0, verify);
    case Corrected => SnapshotKeepsKeys(cache, email, oid, cache[email], verify);
  }

  /** Either form accepts only with a listed key that signed the object and
      stays cached, and a thrown result was raised by a listed key. */
  lemma KeyLoopPolicy(loop: KeyLoop, cache: map<string, seq<Key>>, email: string, oid: Oid,
                      verify: (Oid, Key) -> Verdict)
    requires email in cache
    ensures var s := KeyLoopSearch(loop, cache, email, oid, verify);
            && (s.result.Matched? ==> email in s.cache && exists k :: k in cache[email] && k in s.cache[email] && verify(oid, k) == Signed(s.result.identity))
            && (s.result.Threw? ==> exists k :: k in cache[email] && verify(oid, k) == ThrownBy(s.result))
  {
    match loop
    case AsWritten => LiveSearchPolicy(cache, email, oid, verify);
    case Corrected =>
      var keys := cache[email];
      var s := SnapshotSearch(cache, email, oid, keys, verify);
      SnapshotKeepsKeys(cache, email, oid, keys, verify);
      if !s.result.Exhausted? {
        var k := s.tried[|s.tried| - 1];
        assert k == keys[|s.tried| - 1];
        assert k in multiset(keys);
        assert k in s.cache[email];
      }
  }

  // ---------------------------------------------------------------------
  // The loop over the pushed objects

  /** One object: its lines of output, the cache after it, and the failure
      that stops the script, if any. */
  datatype Step = Step(failure: Option<Failure>, cache: map<string, seq<Key>>, lines: seq<Line>)

  /** A commit or tag: look up its email's keys and run the key loop */
  function Examine(cache: map<string, seq<Key>>, oid: Oid, obj: GitObject, o: Oracles): (st: Step)
    requires Signable(obj)
    ensures forall l :: l in st.lines ==> !l.Counter? && l != VerificationComplete
  {
    var email := EmailOf(obj);
    var checking := [Checking(KindName(obj), Abbr(oid), email)];
    var looked := LookupSpec(cache, email, o.search, o.keysOf);
    match looked.result
    case Err(e) => Step(Some(LookupFailed(oid, e)), looked.cache, checking)
    case Ok(keys) =>
      if |keys| == 0 then Step(Some(NoKeys(oid, email)), looked.cache, checking + [NoKeysFound])
      else
        var s := KeyLoopSearch(o.loop, looked.cache, email, oid, o.verify);
        match s.result
        case Matched(id) => Step(None, s.cache, checking + [SignedWith(id)])
        case Exhausted => Step(Some(NoKeyMatched(oid, email)), s.cache, checking + [NoKeysMatched])
        case Threw(noSignature, m) =>
          if noSignature then Step(Some(Unsigned(oid, m)), s.cache, checking + [NoSignature])
          else Step(Some(VerifyFailed(oid, m)), s.cache, checking)
  }

  /** Object number i + 1: print its counter, read it, and examine it
      when it is a commit or a tag. */
  function CheckObject(cache: map<string, seq<Key>>, oids: seq<Oid>, i: nat, o: Oracles): Step
    requires i < |oids|
  {
    var oid := oids[i];
    var counter := Counter(i + 1, |oids|);
    match o.readObject(oid)
    case Err(m) => Step(Some(ReadFailed(oid, m)), cache, [counter])
    case Ok(obj) =>
      if !Signable(obj) then Step(None, cache, [counter])
      else
        var st := Examine(cache, oid, obj, o);
        st.(lines := [counter] + st.lines)
  }

  datatype Run = Run(outcome: Outcome, cache: map<string, seq<Key>>, lines: seq<Line>)

  /** The script from object i on, over the cache as it stands */
  function RunFrom(cache: map<string, seq<Key>>, oids: seq<Oid>, i: nat, o: Oracles): Run
    requires i <= |oids|
    decreases |oids| - i, 1
  {
    if i == |oids| then Run(Done, cache, [VerificationComplete])
    else Continue(CheckObject(cache, oids, i, o), oids, i, o)
  }

  /** After object i: stop at its failure, or go on with the next object */
  function Continue(st: Step, oids: seq<Oid>, i: nat, o: Oracles): Run
    requires i < |oids|
    decreases |oids| - i, 0
  {
    if st.failure.Some? then Run(Stopped(st.failure.value), st.cache, st.lines)
    else
      var rest := RunFrom(st.cache, oids, i + 1, o);
      rest.(lines := st.lines + rest.lines)
  }

  /** The whole script */
  function Hook(cache: map<string, seq<Key>>, oids: seq<Oid>, o: Oracles): Run {
    var r := RunFrom(cache, oids, 0, o);
    r.(lines := [Greeting, VerifyingObjects] + r.lines)
  }

  /** The object counters printed, in order */
  function Counters(lines: seq<Line>): seq<nat> {
    if lines == [] then []
    else (if lines[0].Counter? then [lines[0].index] else []) + Counters(lines[1..])
  }

  lemma {:induction false} CountersAppend(a: seq<Line>, b: seq<Line>)
    ensures Counters(a + b) == Counters(a) + Counters(b)
  {
    if a != [] {
      assert (a + b)[1..] == a[1..] + b;
      CountersAppend(a[1..], b);
    } else {
      assert a + b == b;
    }
  }

  /** from, from + 1, ..., to - 1 */
  function CountUp(from: nat, to: nat): seq<nat>
    decreases to - from
  {
    if from >= to then [] else [from] + CountUp(from + 1, to)
  }

  /** The lines of object i, which print counter i+1, followed by a run
      from object i+1 that stopped after printing counters i+2.. */
  lemma JoinCounts(lines: seq<Line>, rest: Run, i: nat, n: nat)
    requires Counters(lines) == [i + 1]
    requires var c := Counters(rest.lines);
             rest.outcome.Stopped? ==> 0 < |c| && i + 1 + |c| <= n && c == CountUp(i + 2, i + 2 + |c|)
    ensures var c := Counters(lines + rest.lines);
            rest.outcome.Stopped? ==> 0 < |c| && i + |c| <= n && c == CountUp(i + 1, i + 1 + |c|)
  {
    CountersAppend(lines, rest.lines);
  }

  /** One object prints exactly one counter, its own, and never the
      completion line. */
  lemma CheckObjectLines(cache: map<string, seq<Key>>, oids: seq<Oid>, i: nat, o: Oracles)
    requires i < |oids|
    ensures var st := CheckObject(cache, oids, i, o);
            && Counters(st.lines) == [i + 1]
            && VerificationComplete !in st.lines
            && (forall l :: l in st.lines && l.Counter? ==> l == Counter(i + 1, |oids|))
  {
    var st := CheckObject(cache, oids, i, o);
    var rest := st.lines[1..];
    assert st.lines == [Counter(i + 1, |oids|)] + rest;
    assert forall l :: l in rest ==> !l.Counter? && l != VerificationComplete;
    NoCounters(rest);
  }

  /** One object keeps every cached key of every email; only a lookup miss
      adds an entry, and trees and blobs leave the cache alone. */
  lemma CheckObjectCache(cache: map<string, seq<Key>>, oids: seq<Oid>, i: nat, o: Oracles)
    requires i < |oids|
    ensures var st := CheckObject(cache, oids, i, o);
            && st.cache.Keys >= cache.Keys
            && (forall e :: e in cache ==> multiset(st.cache[e]) == multiset(cache[e]))
            && (o.readObject(oids[i]).Ok? && !Signable(o.readObject(oids[i]).value) ==> st == Step(None, cache, [Counter(i + 1, |oids|)]))
  {
    match o.readObject(oids[i])
    case Err(_) =>
    case Ok(obj) =>
      if Signable(obj) {
        var email := EmailOf(obj);
        var looked := LookupSpec(cache, email, o.search, o.keysOf);
        if looked.result.Ok? && |looked.result.value| > 0 {
          KeyLoopKeepsKeys(o.loop, looked.cache, email, oids[i], o.verify);
        }
      }
  }

  /** The signature policy for one commit or tag. A lookup error stops the
      script with that error and an empty key list with "no keys"; the
      object passes only when the lookup succeeded and one of the keys
      it returned signed the object, a key that stays cached for the email. */
  lemma ExaminePolicy(cache: map<string, seq<Key>>, oid: Oid, obj: GitObject, o: Oracles)
    requires Signable(obj)
    ensures var st := Examine(cache, oid, obj, o);
            var email := EmailOf(obj);
            var looked := LookupSpec(cache, email, o.search, o.keysOf);
            && (looked.result.Err? ==> st.failure == Some(LookupFailed(oid, looked.result.error)))
            && (looked.result == Ok([]) ==> st.failure == Some(NoKeys(oid, email)))
            && (st.failure.None? ==> looked.result.Ok? && exists k :: k in looked.result.value && o.verify(oid, k).Signed?)
            && (st.failure.None? ==> email in st.cache && exists k :: k in st.cache[email] && o.verify(oid, k).Signed?)
  {
    var email := EmailOf(obj);
    var looked := LookupSpec(cache, email, o.search, o.keysOf);
    if looked.result.Ok? && |looked.result.value| > 0 {
      KeyLoopPolicy(o.loop, looked.cache, email, oid, o.verify);
    }
  }

  /** How a commit or tag whose keys were found is turned down: a missing
      signature and any other `verify` error are raised by one of its keys,
      and, with the corrected loop, "no key matched" means every key
      resolved to `false` (the loop as written can skip a signing key). */
  lemma ExamineRejects(cache: map<string, seq<Key>>, oid: Oid, obj: GitObject, o: Oracles)
    requires Signable(obj)
    ensures var st := Examine(cache, oid, obj, o);
            var email := EmailOf(obj);
            var looked := LookupSpec(cache, email, o.search, o.keysOf);
            && (st.failure.Some? && st.failure.value.Unsigned? ==>
                  looked.result.Ok? && exists k :: k in looked.result.value && o.verify(oid, k) == NoSignatureError(st.failure.value.message))
            && (st.failure.Some? && st.failure.value.VerifyFailed? ==>
                  looked.result.Ok? && exists k :: k in looked.result.value && o.verify(oid, k) == OtherError(st.failure.value.message))
            && (o.loop == Corrected && st.failure == Some(NoKeyMatched(oid, email)) ==>
                  looked.result.Ok? && forall k :: k in looked.result.value ==> o.verify(oid, k) == NotSigned)
  {
    var email := EmailOf(obj);
    var looked := LookupSpec(cache, email, o.search, o.keysOf);
    if looked.result.Ok? && |looked.result.value| > 0 {
      KeyLoopPolicy(o.loop, looked.cache, email, oid, o.verify);
    }
  }

  /** Conversely, with the corrected loop, a commit or tag passes when its
      keys are found and the first of them whose result is not `false`
      signed it. */
  lemma ExamineAccepts(cache: map<string, seq<Key>>, oid: Oid, obj: GitObject, o: Oracles, j: nat)
    requires Signable(obj) && o.loop == Corrected
    requires var looked := LookupSpec(cache, EmailOf(obj), o.search, o.keysOf);
             && looked.result.Ok? && j < |looked.result.value|
             && o.verify(oid, looked.result.value[j]).Signed?
             && forall i :: 0 <= i < j ==> o.verify(oid, looked.result.value[i]) == NotSigned
    ensures Examine(cache, oid, obj, o).failure.None?
  {
    var email := EmailOf(obj);
    var looked := LookupSpec(cache, email, o.search, o.keysOf);
    SnapshotFindsSigningKey(looked.cache, email, oid, looked.result.value, o.verify, j);
  }

  /** Object `oid` can be read, and when it is a commit or a tag, a key
      cached for its email signed it. */
  predicate Passed(cache: map<string, seq<Key>>, oid: Oid, o: Oracles) {
    && o.readObject(oid).Ok?
    && (Signable(o.readObject(oid).value) ==>
          var email := EmailOf(o.readObject(oid).value);
          email in cache && exists k :: k in cache[email] && o.verify(oid, k).Signed?)
  }

  /** An object that does not stop the script passed the policy. */
  lemma CheckObjectPolicy(cache: map<string, seq<Key>>, oids: seq<Oid>, i: nat, o: Oracles)
    requires i < |oids|
    ensures var st := CheckObject(cache, oids, i, o);
            st.failure.None? ==> Passed(st.cache, oids[i], o)
  {
    match o.readObject(oids[i])
    case Err(_) =>
    case Ok(obj) =>
      if Signable(obj) {
        ExaminePolicy(cache, oids[i], obj, o);
      }
  }

  /** Later objects only rotate cached lists and add entries, so what has
      passed stays passed. */
  lemma PassedKept(c1: map<string, seq<Key>>, c2: map<string, seq<Key>>, oid: Oid, o: Oracles)
    requires c2.Keys >= c1.Keys
    requires forall e :: e in c1 ==> multiset(c2[e]) == multiset(c1[e])
    requires Passed(c1, oid, o)
    ensures Passed(c2, oid, o)
  {
    var obj := o.readObject(oid).value;
    if Signable(obj) {
      var email := EmailOf(obj);
      var k :| k in c1[email] && o.verify(oid, k).Signed?;
      assert k in multiset(c1[email]);
      assert k in c2[email];
    }
  }

  lemma {:induction false} NoCounters(lines: seq<Line>)
    requires forall l :: l in lines ==> !l.Counter?
    ensures Counters(lines) == []
  {
    if lines != [] {
      NoCounters(lines[1..]);
    }
  }

  /** The completion line, and so `done()`, appears exactly when no object
      failed. */
  lemma {:induction false} RunFromCompletes(cache: map<string, seq<Key>>, oids: seq<Oid>, i: nat, o: Oracles)
    requires i <= |oids|
    ensures var r := RunFrom(cache, oids, i, o);
            r.outcome.Done? <==> VerificationComplete in r.lines
    decreases |oids| - i, 1
  {
    if i < |oids| {
      CheckObjectLines(cache, oids, i, o);
      ContinueCompletes(CheckObject(cache, oids, i, o), oids, i, o);
    }
  }

  lemma {:induction false} ContinueCompletes(st: Step, oids: seq<Oid>, i: nat, o: Oracles)
    requires i < |oids| && VerificationComplete !in st.lines
    ensures var r := Continue(st, oids, i, o);
            r.outcome.Done? <==> VerificationComplete in r.lines
    decreases |oids| - i, 0
  {
    if st.failure.None? {
      RunFromCompletes(st.cache, oids, i + 1, o);
    }
  }

  /** When every object passed, the completion line is the last line. */
  lemma {:induction false} RunFromEndsComplete(cache: map<string, seq<Key>>, oids: seq<Oid>, i: nat, o: Oracles)
    requires i <= |oids|
    ensures var r := RunFrom(cache, oids, i, o);
            r.outcome.Done? ==> |r.lines| > 0 && r.lines[|r.lines| - 1] == VerificationComplete
    decreases |oids| - i, 1
  {
    if i < |oids| {
      var st := CheckObject(cache, oids, i, o);
      assert RunFrom(cache, oids, i, o) == Continue(st, oids, i, o);
      ContinueEndsComplete(st, oids, i, o);
    }
  }

  lemma {:induction false} ContinueEndsComplete(st: Step, oids: seq<Oid>, i: nat, o: Oracles)
    requires i < |oids|
    ensures var r := Continue(st, oids, i, o);
            r.outcome.Done? ==> |r.lines| > 0 && r.lines[|r.lines| - 1] == VerificationComplete
    decreases |oids| - i, 0
  {
    if st.failure.None? {
      RunFromEndsComplete(st.cache, oids, i + 1, o);
      JoinEnds(st.lines, RunFrom(st.cache, oids, i + 1, o));
    }
  }

  /** Lines printed before a run that ends with the completion line */
  lemma JoinEnds(lines: seq<Line>, rest: Run)
    requires rest.outcome.Done? ==> |rest.lines| > 0 && rest.lines[|rest.lines| - 1] == VerificationComplete
    ensures var all := lines + rest.lines;
            rest.outcome.Done? ==> |all| > 0 && all[|all| - 1] == VerificationComplete
  {
    var all := lines + rest.lines;
    if rest.outcome.Done? {
      assert all[|all| - 1] == rest.lines[|rest.lines| - 1];
    }
  }

  /** When every object passes, the counters printed run i + 1, i + 2, ...
      up to the number of objects. */
  lemma {:induction false} RunFromCountsAll(cache: map<string, seq<Key>>, oids: seq<Oid>, i: nat, o: Oracles)
    requires i <= |oids|
    ensures var r := RunFrom(cache, oids, i, o);
            r.outcome.Done? ==> Counters(r.lines) == CountUp(i + 1, |oids| + 1)
    decreases |oids| - i, 1
  {
    if i == |oids| {
      NoCounters([VerificationComplete]);
    } else {
      CheckObjectLines(cache, oids, i, o);
      ContinueCountsAll(CheckObject(cache, oids, i, o), oids, i, o);
    }
  }

  lemma {:induction false} ContinueCountsAll(st: Step, oids: seq<Oid>, i: nat, o: Oracles)
    requires i < |oids| && Counters(st.lines) == [i + 1]
    ensures var r := Continue(st, oids, i, o);
            r.outcome.Done? ==> Counters(r.lines) == CountUp(i + 1, |oids| + 1)
    decreases |oids| - i, 0
  {
    if st.failure.None? {
      var rest := RunFrom(st.cache, oids, i + 1, o);
      RunFromCountsAll(st.cache, oids, i + 1, o);
      CountersAppend(st.lines, rest.lines);
    }
  }

  /** The objects are checked in order and the script stops at the first
      failure: the counters printed run i + 1, i + 2, ... up to the object
      that failed. */
  lemma {:induction false} RunFromCountsToFailure(cache: map<string, seq<Key>>, oids: seq<Oid>, i: nat, o: Oracles)
    requires i <= |oids|
    ensures var r := RunFrom(cache, oids, i, o);
            var c := Counters(r.lines);
            r.outcome.Stopped? ==> 0 < |c| && i + |c| <= |oids| && c == CountUp(i + 1, i + 1 + |c|)
    decreases |oids| - i, 1
  {
    if i < |oids| {
      var st := CheckObject(cache, oids, i, o);
      assert RunFrom(cache, oids, i, o) == Continue(st, oids, i, o);
      CheckObjectLines(cache, oids, i, o);
      ContinueCountsToFailure(st, oids, i, o);
    }
  }

  lemma {:induction false} ContinueCountsToFailure(st: Step, oids: seq<Oid>, i: nat, o: Oracles)
    requires i < |oids| && Counters(st.lines) == [i + 1]
    ensures var r := Continue(st, oids, i, o);
            var c := Counters(r.lines);
            r.outcome.Stopped? ==> 0 < |c| && i + |c| <= |oids| && c == CountUp(i + 1, i + 1 + |c|)
    decreases |oids| - i, 0
  {
    if st.failure.Some? {
      assert CountUp(i + 1, i + 2) == [i + 1];
    } else {
      RunFromCountsToFailure(st.cache, oids, i + 1, o);
      JoinCounts(st.lines, RunFrom(st.cache, oids, i + 1, o), i, |oids|);
    }
  }

  /** Across the whole run no cached key is lost or duplicated. */
  lemma {:induction false} RunFromCache(cache: map<string, seq<Key>>, oids: seq<Oid>, i: nat, o: Oracles)
    requires i <= |oids|
    ensures var r := RunFrom(cache, oids, i, o);
            && r.cache.Keys >= cache.Keys
            && (forall e :: e in cache ==> multiset(r.cache[e]) == multiset(cache[e]))
    decreases |oids| - i, 1
  {
    if i < |oids| {
      CheckObjectCache(cache, oids, i, o);
      ContinueCache(CheckObject(cache, oids, i, o), oids, i, o);
    }
  }

  lemma {:induction false} ContinueCache(st: Step, oids: seq<Oid>, i: nat, o: Oracles)
    requires i < |oids|
    ensures var r := Continue(st, oids, i, o);
            && r.cache.Keys >= st.cache.Keys
            && (forall e :: e in st.cache ==> multiset(r.cache[e]) == multiset(st.cache[e]))
    decreases |oids| - i, 0
  {
    if st.failure.None? {
      RunFromCache(st.cache, oids, i + 1, o);
    }
  }

  /** When the run from object i reaches `done`, every object from i on
      passed the policy against the final cache. */
  lemma {:induction false} RunFromPolicy(cache: map<string, seq<Key>>, oids: seq<Oid>, i: nat, o: Oracles)
    requires i <= |oids|
    ensures var r := RunFrom(cache, oids, i, o);
            r.outcome.Done? ==> forall j :: i <= j < |oids| ==> Passed(r.cache, oids[j], o)
    decreases |oids| - i, 1
  {
    if i < |oids| {
      var st := CheckObject(cache, oids, i, o);
      assert RunFrom(cache, oids, i, o) == Continue(st, oids, i, o);
      CheckObjectPolicy(cache, oids, i, o);
      ContinuePolicy(st, oids, i, o);
    }
  }

  lemma {:induction false} ContinuePolicy(st: Step, oids: seq<Oid>, i: nat, o: Oracles)
    requires i < |oids|
    requires st.failure.None? ==> Passed(st.cache, oids[i], o)
    ensures var r := Continue(st, oids, i, o);
            r.outcome.Done? ==> forall j :: i <= j < |oids| ==> Passed(r.cache, oids[j], o)
    decreases |oids| - i, 0
  {
    if st.failure.None? {
      RunFromPolicy(st.cache, oids, i + 1, o);
      RunFromCache(st.cache, oids, i + 1, o);
      JoinPassed(st.cache, RunFrom(st.cache, oids, i + 1, o), oids, i, o);
    }
  }

  /** Object i passed against the cache its check left; the run after it
      keeps that, and the objects after it passed too. */
  lemma JoinPassed(cache: map<string, seq<Key>>, rest: Run, oids: seq<Oid>, i: nat, o: Oracles)
    requires i < |oids| && Passed(cache, oids[i], o)
    requires rest.cache.Keys >= cache.Keys
    requires forall e :: e in cache ==> multiset(rest.cache[e]) == multiset(cache[e])
    requires rest.outcome.Done? ==> forall j :: i + 1 <= j < |oids| ==> Passed(rest.cache, oids[j], o)
    ensures rest.outcome.Done? ==> forall j :: i <= j < |oids| ==> Passed(rest.cache, oids[j], o)
  {
    PassedKept(cache, rest.cache, oids[i], o);
  }

  /** The policy of the script: `done()` is reached only when every pushed
      object could be read and every commit and tag among them was signed
      by a key cached for its author's or tagger's email. */
  lemma HookPolicy(cache: map<string, seq<Key>>, oids: seq<Oid>, o: Oracles)
    ensures var r := Hook(cache, oids, o);
            r.outcome.Done? ==> forall j :: 0 <= j < |oids| ==> Passed(r.cache, oids[j], o)
  {
    RunFromPolicy(cache, oids, 0, o);
  }

  /** For the whole script: `done()` (the completion line) comes once, last,
      and exactly when no object failed. */
  lemma HookCompletes(cache: map<string, seq<Key>>, oids: seq<Oid>, o: Oracles)
    ensures var r := Hook(cache, oids, o);
            && (r.outcome.Done? <==> VerificationComplete in r.lines)
            && (r.outcome.Done? ==> r.lines[|r.lines| - 1] == VerificationComplete)
  {
    var r := RunFrom(cache, oids, 0, o);
    RunFromCompletes(cache, oids, 0, o);
    RunFromEndsComplete(cache, oids, 0, o);
    JoinEnds([Greeting, VerifyingObjects], r);
    var lines := [Greeting, VerifyingObjects] + r.lines;
    assert VerificationComplete in lines <==> VerificationComplete in r.lines;
  }

  /** For the whole script: the counters run 1, 2, ... up to the number of
      objects, or up to the object that failed. */
  lemma HookCounters(cache: map<string, seq<Key>>, oids: seq<Oid>, o: Oracles)
    ensures var r := Hook(cache, oids, o);
            && (r.outcome.Done? ==> Counters(r.lines) == CountUp(1, |oids| + 1))
            && (r.outcome.Stopped? ==> 0 < |Counters(r.lines)| <= |oids|
                                       && Counters(r.lines) == CountUp(1, 1 + |Counters(r.lines)|))
  {
    var r := RunFrom(cache, oids, 0, o);
    RunFromCountsAll(cache, oids, 0, o);
    RunFromCountsToFailure(cache, oids, 0, o);
    CountersAppend([Greeting, VerifyingObjects], r.lines);
    assert Counters([Greeting, VerifyingObjects]) == [];
  }

  /** For the whole script: no cached key is lost or duplicated. */
  lemma HookKeepsKeys(cache: map<string, seq<Key>>, oids: seq<Oid>, o: Oracles)
    ensures var r := Hook(cache, oids, o);
            forall e :: e in cache ==> e in r.cache && multiset(r.cache[e]) == multiset(cache[e])
  {
    RunFromCache(cache, oids, 0, o);
  }

  /** One pass of the script's `for (const oid of oids)` body. */
  method VerifyObject(cache: KeyCache, oids: seq<Oid>, i: nat, o: Oracles)
    returns (failure: Option<Failure>, lines: seq<Line>)
    requires i < |oids|
    modifies cache
    ensures Step(failure, cache.entries, lines) == CheckObject(old(cache.entries), oids, i, o)
  {
    var oid := oids[i];
    lines := [Counter(i + 1, |oids|)];
    var read := o.readObject(oid);
    if read.Err? {
      return Some(ReadFailed(oid, read.error)), lines;
    }
    var obj := read.value;
    if !Signable(obj) {
      return None, lines;
    }
    var rest;
    failure, rest := ExamineObject(cache, oid, obj, o);
    lines := lines + rest;
  }

  /** The body of the loop for a commit or a tag: print the checking line,
      look up the keys and try them. */
  method ExamineObject(cache: KeyCache, oid: Oid, obj: GitObject, o: Oracles)
    returns (failure: Option<Failure>, lines: seq<Line>)
    requires Signable(obj)
    modifies cache
    ensures Step(failure, cache.entries, lines) == Examine(old(cache.entries), oid, obj, o)
  {
    var email := EmailOf(obj);
    lines := [Checking(KindName(obj), Abbr(oid), email)];
    var keys, requests := cache.Lookup(email, o.search, o.keysOf);
    if keys.Err? {
      return Some(LookupFailed(oid, keys.error)), lines;
    }
    if |keys.value| == 0 {
      return Some(NoKeys(oid, email)), lines + [NoKeysFound];
    }
    var result;
    if o.loop == AsWritten {
      result := TryKeys(cache, email, oid, o.verify);
    } else {
      result := TryKeysSnapshot(cache, email, oid, o.verify);
    }
    match result
    case Matched(id) =>
      return None, lines + [SignedWith(id)];
    case Exhausted =>
      return Some(NoKeyMatched(oid, email)), lines + [NoKeysMatched];
    case Threw(noSignature, m) =>
      if noSignature {
        return Some(Unsigned(oid, m)), lines + [NoSignature];
      }
      return Some(VerifyFailed(oid, m)), lines;
  }

  /** The script: `done()` is reached only after the last object. */
  method RunHook(cache: KeyCache, oids: seq<Oid>, o: Oracles) returns (outcome: Outcome, lines: seq<Line>)
    modifies cache
    ensures Run(outcome, cache.entries, lines) == Hook(old(cache.entries), oids, o)
  {
    lines := [Greeting, VerifyingObjects];
    var i := 0;
    while i < |oids|
      invariant i <= |oids|
      invariant var rest := RunFrom(cache.entries, oids, i, o);
                Hook(old(cache.entries), oids, o) == rest.(lines := lines + rest.lines)
    {
      var failure, objectLines := VerifyObject(cache, oids, i, o);
      lines := lines + objectLines;
      if failure.Some? {
        return Stopped(failure.value), lines;
      }
      i := i + 1;
    }
    lines := lines + [VerificationComplete];
    return Done, lines;
  }
}
