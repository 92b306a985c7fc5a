/** The email-to-public-key lookup with its process-wide trust cache
    (lookup.js). The cache maps an email address to the ordered list of
    that user's public keys, most trusted first; `lookup` fills it from
    the GitHub API on a miss and `demote` moves a key that failed to
    verify a signature to the back of its list. The two GitHub requests
    are oracles passed in as functions. */
module KeyLookup {
  import opened Common

  type Key = string

  /** What the user-search request returns: `total_count` (None when the
      body carries no number, as in a rate-limit reply) and the logins of
      `items`. */
  datatype SearchReply = SearchReply(totalCount: Option<int>, logins: seq<string>)

  datatype LookupError =
    | RequestFailed(message: string)                  // `err` from either request
    | NoUser(email: string)                           // "No GitHub user publicly associated with <email>"
    | SeveralUsers(email: string, logins: seq<string>) // "Multiple GitHub users found for <email>: [...]"
    | UnexpectedCount                                 // "Unexpected value for data.total_count ..."
    | MissingItem                                     // total_count is 1 but `items[0]` is absent

  /** The `total_count` branch of `email2username` */
  function UsernameOf(email: string, reply: Result<SearchReply, string>): (r: Result<string, LookupError>)
    ensures r.Ok? <==> reply.Ok? && reply.value.totalCount == Some(1) && |reply.value.logins| > 0
    ensures r.Ok? ==> r.value == reply.value.logins[0]
    ensures r == Err(NoUser(email)) <==> reply.Ok? && reply.value.totalCount == Some(0)
    ensures r.Err? && r.error.SeveralUsers? <==> reply.Ok? && reply.value.totalCount.Some? && reply.value.totalCount.value > 1
    ensures r.Err? && r.error.SeveralUsers? ==> r.error == SeveralUsers(email, reply.value.logins)
    ensures reply.Err? ==> r == Err(RequestFailed(reply.error))
  {
    match reply
    case Err(message) => Err(RequestFailed(message))
    case Ok(SearchReply(count, logins)) =>
      if count == Some(0) then Err(NoUser(email))
      else if count.Some? && count.value > 1 then Err(SeveralUsers(email, logins))
      else if count == Some(1) then (if |logins| > 0 then Ok(logins[0]) else Err(MissingItem))
      else Err(UnexpectedCount)
  }

  /** The outcome of one `lookup`: its result, the cache afterwards, and how
      many requests went to the network. */
  datatype Looked = Looked(result: Result<seq<Key>, LookupError>, cache: map<string, seq<Key>>, requests: nat)

  /** `lookup(email)` against a cache. A cached entry is returned as it is,
      even an empty list (an empty array is truthy); otherwise the search and
      then the key request are made, and the cache is written only when both
      succeed. */
  function LookupSpec(cache: map<string, seq<Key>>, email: string,
                      search: string -> Result<SearchReply, string>,
                      keysOf: string -> Result<seq<Key>, string>): (l: Looked)
    ensures email in cache ==> l == Looked(Ok(cache[email]), cache, 0)
    ensures l.result.Err? ==> l.cache == cache && email !in cache
    ensures l.result.Ok? ==> l.cache == cache[email := l.result.value]
    ensures email !in cache ==> l.requests == (if UsernameOf(email, search(email)).Ok? then 2 else 1)
    ensures email !in cache && UsernameOf(email, search(email)).Err? ==> l.result == Err(UsernameOf(email, search(email)).error)
    ensures email !in cache && l.result.Ok? ==>
              UsernameOf(email, search(email)).Ok? && keysOf(UsernameOf(email, search(email)).value) == Ok(l.result.value)
    ensures email !in cache && UsernameOf(email, search(email)).Ok? && keysOf(UsernameOf(email, search(email)).value).Ok? ==>
              l.result == Ok(keysOf(UsernameOf(email, search(email)).value).value)
    ensures email !in cache && UsernameOf(email, search(email)).Ok? && keysOf(UsernameOf(email, search(email)).value).Err? ==>
              l.result == Err(RequestFailed(keysOf(UsernameOf(email, search(email)).value).error))
  {
    if email in cache then Looked(Ok(cache[email]), cache, 0)
    else match UsernameOf(email, search(email))
      case Err(e) => Looked(Err(e), cache, 1)
      case Ok(username) =>
        match keysOf(username)
        case Err(message) => Looked(Err(RequestFailed(message)), cache, 2)
        case Ok(keys) => Looked(Ok(keys), cache[email := keys], 2)
  }

  /** Memoisation: a second lookup right after a successful one returns the
      identical list without any request. */
  lemma LookupIsMemoised(cache: map<string, seq<Key>>, email: string,
                         search: string -> Result<SearchReply, string>,
                         keysOf: string -> Result<seq<Key>, string>)
    requires LookupSpec(cache, email, search, keysOf).result.Ok?
    ensures var first := LookupSpec(cache, email, search, keysOf);
            LookupSpec(first.cache, email, search, keysOf) == Looked(first.result, first.cache, 0)
  {
  }

  /** `array.indexOf(key)`: the first position of `key`, or -1 */
  function IndexOf(s: seq<Key>, key: Key): (i: int)
    ensures i == -1 <==> key !in s
    ensures i != -1 ==> 0 <= i < |s| && s[i] == key && key !in s[..i]
  {
    if s == [] then -1
    else if s[0] == key then 0
    else var j := IndexOf(s[1..], key); if j == -1 then -1 else j + 1
  }

  /** `s` without the first occurrence of `key` */
  function RemoveFirst(s: seq<Key>, key: Key): (r: seq<Key>)
    ensures key in s ==> |r| == |s| - 1
    ensures key !in s ==> r == s
  {
    if s == [] then []
    else if s[0] == key then s[1..]
    else [s[0]] + RemoveFirst(s[1..], key)
  }

  /** What `demote` makes of a list: the first occurrence of `key` moves to
      the back; a list without `key` is left as it is. */
  function Demoted(s: seq<Key>, key: Key): (r: seq<Key>)
    ensures |r| == |s|
    ensures key in s ==> r[|r| - 1] == key
    ensures key !in s ==> r == s
  {
    if key in s then RemoveFirst(s, key) + [key] else s
  }

  lemma {:induction false} RemoveFirstAt(s: seq<Key>, key: Key)
    requires key in s
    ensures RemoveFirst(s, key) == s[..IndexOf(s, key)] + s[IndexOf(s, key) + 1..]
  {
    if s[0] != key {
      RemoveFirstAt(s[1..], key);
      assert s[1..][..IndexOf(s[1..], key)] == s[1..IndexOf(s, key)];
    }
  }

  lemma {:induction false} RemoveFirstMultiset(s: seq<Key>, key: Key)
    requires key in s
    ensures multiset(RemoveFirst(s, key)) + multiset{key} == multiset(s)
  {
    if s[0] != key {
      RemoveFirstMultiset(s[1..], key);
      assert s == [s[0]] + s[1..];
    } else {
      assert s == [key] + s[1..];
    }
  }

  /** Keys other than `key`, in order */
  function Others(s: seq<Key>, key: Key): (r: seq<Key>)
    ensures key !in r
  {
    if s == [] then []
    else (if s[0] == key then [] else [s[0]]) + Others(s[1..], key)
  }

  lemma {:induction false} OthersAppend(a: seq<Key>, b: seq<Key>, key: Key)
    ensures Others(a + b, key) == Others(a, key) + Others(b, key)
  {
    if a != [] {
      assert (a + b)[1..] == a[1..] + b;
      OthersAppend(a[1..], b, key);
    } else {
      assert a + b == b;
    }
  }

  lemma {:induction false} OthersRemoveFirst(s: seq<Key>, key: Key)
    ensures Others(RemoveFirst(s, key), key) == Others(s, key)
  {
    if s != [] && s[0] != key {
      OthersRemoveFirst(s[1..], key);
      OthersAppend([s[0]], RemoveFirst(s[1..], key), key);
    } else if s != [] {
      assert Others(s, key) == Others(s[1..], key);
    }
  }

  /** Demotion loses no key and duplicates none. */
  lemma {:induction false} DemotedKeepsKeys(s: seq<Key>, key: Key)
    ensures multiset(Demoted(s, key)) == multiset(s)
  {
    if key in s {
      RemoveFirstMultiset(s, key);
    }
  }

  /** Demotion loses nothing, duplicates nothing, puts the key last and
      keeps the relative order of every other key. */
  lemma {:induction false} DemotedIsRotation(s: seq<Key>, key: Key)
    requires key in s
    ensures |Demoted(s, key)| == |s|
    ensures multiset(Demoted(s, key)) == multiset(s)
    ensures Demoted(s, key)[|s| - 1] == key
    ensures Others(Demoted(s, key), key) == Others(s, key)
  {
    DemotedKeepsKeys(s, key);
    OthersRemoveFirst(s, key);
    OthersAppend(RemoveFirst(s, key), [key], key);
  }

  /** Only the first of several occurrences moves. */
  lemma {:induction false} DemotedMovesFirstOccurrence(s: seq<Key>, key: Key)
    requires key in s
    ensures var i := IndexOf(s, key);
            Demoted(s, key) == s[..i] + s[i + 1..] + [key]
  {
    RemoveFirstAt(s, key);
  }

  /** A key that heads its list is no longer first after demotion, as long
      as the next key is a different one. */
  lemma {:induction false} DemotedLeavesFront(s: seq<Key>, key: Key)
    requires |s| >= 2 && s[0] == key && s[1] != key
    ensures Demoted(s, key)[0] == s[1]
  {
  }

  /** The trust cache: the module-level `cache` object. */
  class KeyCache {
    var entries: map<string, seq<Key>>

    constructor ()
      ensures entries == map[]
    {
      entries := map[];
    }

    /** `lookup(email)`. The list returned is the cached one itself: callers
        that later demote keys of this email see the cache's current order. */
    method Lookup(email: string, search: string -> Result<SearchReply, string>,
                  keysOf: string -> Result<seq<Key>, string>)
      returns (r: Result<seq<Key>, LookupError>, requests: nat)
      modifies this
      ensures Looked(r, entries, requests) == LookupSpec(old(entries), email, search, keysOf)
      ensures r.Ok? ==> email in entries && entries[email] == r.value
    {
      if email in entries {
        return Ok(entries[email]), 0;
      }
      var username := UsernameOf(email, search(email));
      if username.Err? {
        return Err(username.error), 1;
      }
      var keys := keysOf(username.value);
      if keys.Err? {
        return Err(RequestFailed(keys.error)), 2;
      }
      entries := entries[email := keys.value];
      return Ok(entries[email]), 2;
    }

    /** `demote(email, key)`: `splice(indexOf(key), 1)` then `push`. When the
        key is absent, `indexOf` is -1 and the splice takes the last key,
        which the push puts straight back. The source throws when the email
        is not cached, and pushes `undefined` onto an empty list. */
    method Demote(email: string, key: Key)
      requires email in entries && |entries[email]| > 0
      modifies this
      ensures entries == old(entries)[email := Demoted(old(entries)[email], key)]
    {
      var list := entries[email];
      var i := IndexOf(list, key);
      var start := if i < 0 then |list| + i else i;  // a negative start counts from the end
      var removed := list[start];
      list := list[..start] + list[start + 1..];
      list := list + [removed];
      entries := entries[email := list];
      if key in old(entries)[email] {
        RemoveFirstAt(old(entries)[email], key);
      } else {
        assert list == old(entries)[email];
      }
    }
  }

  /** Two lookups with no demotion between them return the same list, and
      the second makes no request. */
  method LookupTwice(cache: KeyCache, email: string, search: string -> Result<SearchReply, string>,
                     keysOf: string -> Result<seq<Key>, string>)
    returns (first: Result<seq<Key>, LookupError>, second: Result<seq<Key>, LookupError>, requests: nat)
    modifies cache
    ensures first.Ok? ==> second == first && requests == 0
  {
    first, requests := cache.Lookup(email, search, keysOf);
    second, requests := cache.Lookup(email, search, keysOf);
  }
}
