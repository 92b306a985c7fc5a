# Push reception in isomorphic-git/server, modelled in Dafny

This project models the part of the isomorphic-git/server that receives a
`git push` over smart HTTP:

- how an incoming request is classified as an info/refs advertisement, an
  upload-pack (fetch), a receive-pack (push), or one of their CORS
  preflights (`identify-request.js`);
- how the repository directory (`gitdir`) is cut out of the URL path
  (`parse-request.js`);
- the handler's first-match dispatch and its receive-pack branch
  (`middleware.js`): landing the pack in quarantine and naming it after its
  checksum, indexing with progress reports, moving pack and index into the
  repository, running the pre-receive hook, and the ordered stream of
  status events (print, unpack, ok, ng, error, fin) written to the one
  response;
- the process-wide trust cache that maps an email to its public keys,
  with `lookup` and `demote` (`lookup.js`);
- the default pre-receive hook, which requires every pushed commit and tag
  to be signed by one of the keys found for its author or tagger
  (`pre-receive-hook.js`).

The modules follow the files: `Common` (shared types and the JavaScript
string and byte helpers), `Identify`, `Parse`, `KeyLookup`,
`PreReceiveHook` and `Middleware`. Pure code is written as functions with
lemmas. Code that changes state step by step is written as methods:
- `KeyLookup.KeyCache` is a class over the cache map;
- `Middleware.Response` is a class whose body the receive-pack methods
  append to;
- the hook's loops are `while` loops over the shared cache.

Each method is proved equal to a specification function, and the lemmas
state what the source promises about those functions. The object store,
the signature check, the two GitHub requests, the request parser, the
pack indexer and the hook sandbox are oracles or given outcomes.

Two behaviours of the code run against what one might expect of a push
server, and the model follows the code in both:
- When the hook rejects a push, the code writes an error event and fin
  but no ng event per ref (`Middleware.RefVerdicts`,
  `Middleware.HookRejectionTranscript`).
- The receive-pack branch never answers 500. The status is 200 once the
  headers are written, and it is set to 200 when the client hung up.
  Otherwise it is left as it was (`Middleware.ReceivePack`).

The pack and its index are moved into the repository before the hook
runs, so a rejected push still leaves its objects stored
(`Middleware.MoveWrites`).

Everywhere else the model follows the code, except for the two defects
listed under "## Findings". Each is modelled both as written and
corrected:
- The hook's key loop is `PreReceiveHook.LiveSearch` and
  `PreReceiveHook.TryKeys` as written, and `PreReceiveHook.SnapshotSearch`
  and `PreReceiveHook.TryKeysSnapshot` corrected. The script
  (`PreReceiveHook.Hook`, `PreReceiveHook.RunHook`) runs the form that the
  `loop` field of its oracles names. Every script-level lemma holds of both
  forms, so in particular `PreReceiveHook.HookPolicy` is a statement about
  the script as written. Only `PreReceiveHook.ExamineAccepts` and one
  clause of `PreReceiveHook.ExamineRejects` are about the corrected form.
- The pack's checksum is `Middleware.LastChunkTail` and
  `Middleware.LandPack` as written, and `Middleware.StreamTail` and
  `Middleware.LandStream` corrected. `Middleware.TryReceive` and
  `Middleware.ReceivePack` use the corrected form.

## Model

| member | source | states |
|---|---|---|
| Common.Abbr | middleware.js:24-26 | the abbreviation is the first min(7, length) characters of the object id, a prefix of it |
| Common.Suffix | middleware.js:88 | `slice(-n)` keeps the last min(n, length) elements, in order |
| Common.Hex | middleware.js:94 | hex encoding writes two lower-case hex digits per byte |
| Common.UnhexHex | middleware.js:93-96 | reading the hex digits back gives the original bytes, so the file name determines the checksum |
| Common.Decimal | middleware.js:113 | a count prints as a non-empty string of decimal digits, with a leading zero only for 0 |
| Common.DecimalReadsBack | middleware.js:113 | the printed digits read back to the count, so no two counts print alike |
| Identify.PreflightInfoRefs | identify-request.js:1-3 | the advertisement preflight (OPTIONS, a path ending in "/info/refs", an advertised service); whenever it holds, neither POST preflight does |
| Identify.InfoRefs | identify-request.js:5-7 | the advertisement (GET, same path and service test); whenever it holds, neither pull, push nor the advertisement preflight does |
| Identify.PreflightPull | identify-request.js:9-11 | the fetch preflight throws (None) exactly on an OPTIONS request without access-control-request-headers; when it holds, the push preflight answers false |
| Identify.Pull | identify-request.js:13-15 | a fetch (POST, its content type, a path ending in "git-upload-pack"); a fetch is never also a push |
| Identify.PreflightPush | identify-request.js:17-19 | the push preflight throws (None) exactly on an OPTIONS request without access-control-request-headers; when it holds, the request is OPTIONS and the path ends in "git-receive-pack" |
| Identify.Push | identify-request.js:21-23 | definition, without a contract of its own: POST, the receive-pack content type and a path ending in "git-receive-pack"; exclusivity is stated by Identify.Pull and Identify.AtMostOneKind |
| Identify.PreflightFor | identify-request.js:9-11 | a POST preflight test fails (None) exactly on an OPTIONS request without an access-control-request-headers header; when it holds, the request is OPTIONS and the path ends with the service suffix (the same holds for identify-request.js:17-19) |
| Identify.PackSuffixesExclusive | identify-request.js:13-23 | no path ends in both "git-upload-pack" and "git-receive-pack" |
| Identify.InfoRefsSuffixExclusive | identify-request.js:1-23 | a path ending in "/info/refs" ends in neither pack service suffix |
| Identify.AtMostOneKind | identify-request.js:1-23 | at most one of the six predicates holds of any request: the preflights exclude GET and POST, info/refs pairs differ in method, pull and push in content type and suffix |
| Parse.StripSuffix | parse-request.js:2 | the anchored replace removes the suffix exactly when the string ends with it, and changes nothing otherwise |
| Parse.StripLeadingSlash | parse-request.js:2 | exactly one leading slash is removed when present, and nothing otherwise |
| Parse.Gitdir | parse-request.js:2 | the pathname can be rebuilt from the gitdir: it is the gitdir with at most one leading slash, followed by the suffix when the pathname ended with it |
| Parse.ParsePull | parse-request.js:6-9 | a path ending in "/git-upload-pack" is the gitdir, with at most one leading slash, followed by that suffix |
| Parse.ParsePush | parse-request.js:11-14 | a path ending in "/git-receive-pack" is the gitdir, with at most one leading slash, followed by that suffix |
| Parse.ParseInfoRefs | parse-request.js:1-4 | the service is returned unchanged from the query |
| Parse.GitdirRoundTrip | parse-request.js:2 | for every string g, "/" + g + suffix yields g back |
| Parse.PushRoundTrip | parse-request.js:11-14 | a push to "/" + g + "/git-receive-pack" addresses g |
| Parse.PullRoundTrip | parse-request.js:6-9 | a fetch to "/" + g + "/git-upload-pack" addresses g |
| Parse.InfoRefsRoundTrip | parse-request.js:1-4 | an advertisement of "/" + g + "/info/refs" addresses g, with the query's service |
| Parse.GitdirIsPiece | parse-request.js:1-14 | the gitdir is a contiguous piece of the path and never longer than it: ".." and other segments are kept |
| Parse.NoSuffixOnlySlash | parse-request.js:2 | a path that does not end with the suffix only loses its leading slash |
| Parse.DoubleSlashKept | parse-request.js:2 | "//a/info/refs" gives "/a": only one slash goes |
| Parse.UnslashedSuffixKept | parse-request.js:12 | "/repogit-receive-pack" gives "repogit-receive-pack": the suffix must follow a slash |
| KeyLookup.UsernameOf | lookup.js:36-45 | a request error is passed on unchanged; total_count 0 is "no user"; more than 1 is "several users", carrying the email and the logins found; exactly 1 gives the first login; anything else is rejected |
| KeyLookup.LookupSpec | lookup.js:50-56 | a cached entry, even an empty list, is returned with no request; on a miss the result is the search's error, or else the key request's error, or else exactly the keys fetched for the login the search found; the cache gains the entry only when both requests succeed, and a failure leaves it unchanged; one request when the search fails, two otherwise |
| KeyLookup.LookupIsMemoised | lookup.js:50-56 | right after a successful lookup, a second lookup returns the same list with no request |
| KeyLookup.IndexOf | lookup.js:59 | `indexOf` is -1 exactly when the key is absent, and otherwise the first position holding it |
| KeyLookup.RemoveFirst | lookup.js:60 | removing the first occurrence shortens a list holding the key by one, and leaves any other list as it is |
| KeyLookup.Demoted | lookup.js:58-61 | demotion keeps the length, puts a present key last, and leaves a list without the key unchanged |
| KeyLookup.DemotedKeepsKeys | lookup.js:58-61 | demotion loses no key and duplicates none (same multiset) |
| KeyLookup.DemotedIsRotation | lookup.js:58-61 | with the key present, demotion keeps length and multiset, puts the key last and keeps the relative order of all other keys |
| KeyLookup.DemotedMovesFirstOccurrence | lookup.js:59-60 | only the first occurrence of a repeated key moves to the back |
| KeyLookup.DemotedLeavesFront | lookup.js:58-61 | a key at the front followed by a different key gives up the front to that key |
| KeyLookup.KeyCache.constructor | lookup.js:2 | the cache starts empty |
| KeyLookup.KeyCache.Lookup | lookup.js:50-56 | the in-place lookup returns, writes and counts requests exactly as LookupSpec; on success the returned list is the cached one |
| KeyLookup.KeyCache.Demote | lookup.js:58-61 | `splice(indexOf(k), 1)` then `push` on the cached array changes only that email's entry, to its demotion; a missing key (index -1) puts the last key straight back |
| KeyLookup.LookupTwice | lookup.js:50-56 | two lookups with no demotion between them return the same list, and the second makes no request |
| PreReceiveHook.LiveSearch | pre-receive-hook.js:32-58 | the key loop as written, walking the cached array by position while demoting in it: it either runs out of keys or tries at least one |
| PreReceiveHook.LiveSearchKeepsKeys | pre-receive-hook.js:32-58 | the loop as written changes only the email's own list and keeps its multiset of keys |
| PreReceiveHook.LiveSearchDemotesRejected | pre-receive-hook.js:51-52 | every key that `verify` turned down is demoted, in the order tried |
| PreReceiveHook.LiveSearchTriesListedKeys | pre-receive-hook.js:32-52 | at most one attempt per remaining position, always with a key of the email's list |
| PreReceiveHook.LiveSearchVerdicts | pre-receive-hook.js:32-58 | every key tried but the last resolved to false; the loop is exhausted exactly when the last did too; a match names the identity of the last key tried; a thrown result is the error the last key tried raised |
| PreReceiveHook.LiveSearchPolicy | pre-receive-hook.js:32-58 | the loop as written accepts only with a key of the email's list that signed the object, and that key stays cached; a thrown result was raised by a key of the list |
| PreReceiveHook.LiveSearchSkipsAKey | pre-receive-hook.js:32-58 | with keys A, B, C and only B signing, the loop as written tries A, C, C and rejects the object |
| PreReceiveHook.SnapshotSearch | pre-receive-hook.js:32-58 | the corrected loop tries a prefix of the key list in order; all but the last tried resolved to false; exhaustion means every key resolved to false; a match names the last key's identity; a thrown result is the error the last key tried raised |
| PreReceiveHook.SnapshotKeepsKeys | pre-receive-hook.js:32-58 | the corrected loop changes only the email's own list and keeps its multiset of keys |
| PreReceiveHook.SnapshotDemotesRejected | pre-receive-hook.js:51-52 | the corrected loop demotes every key turned down, in the order tried |
| PreReceiveHook.SnapshotFindsSigningKey | pre-receive-hook.js:32-58 | when key j is the first whose verify result is not false and it signed the object, the corrected loop accepts with that key's identity after trying exactly keys 0..j |
| PreReceiveHook.SnapshotAcceptsSkippedKey | pre-receive-hook.js:32-58 | with keys A, B, C and only B signing, the corrected loop accepts the object |
| PreReceiveHook.TryKeys | pre-receive-hook.js:31-58 | the in-place loop as written, over the shared cache, ends with LiveSearch's result and cache |
| PreReceiveHook.KeyLoopSearch | pre-receive-hook.js:31-58 | definition: the key loop over the email's cached keys, as written or corrected as the oracles choose |
| PreReceiveHook.KeyLoopKeepsKeys | pre-receive-hook.js:32-58 | either form of the key loop changes only the email's own list and keeps its multiset of keys |
| PreReceiveHook.KeyLoopPolicy | pre-receive-hook.js:32-58 | either form accepts only with a listed key that signed the object with that identity and stays cached, and a thrown result was raised by a listed key |
| PreReceiveHook.TryKeysSnapshot | pre-receive-hook.js:31-58 | the corrected in-place loop over a copy of the keys, demoting in the shared cache, ends with SnapshotSearch's result and cache |
| PreReceiveHook.Examine | pre-receive-hook.js:16-67 | examining a commit or tag, with either form of the key loop, prints neither a counter nor the completion line |
| PreReceiveHook.EmailOf | pre-receive-hook.js:17 | definition, without a contract of its own: the author's email for a commit, the tagger's for a tag |
| PreReceiveHook.KindName | pre-receive-hook.js:16-18 | definition, without a contract of its own: "commit" or "tag", as printed in the checking line |
| PreReceiveHook.CheckObject | pre-receive-hook.js:13-68 | definition, without a contract of its own: the counter, the read, and Examine for a commit or tag; CheckObjectLines, CheckObjectCache and CheckObjectPolicy state its properties |
| PreReceiveHook.RunFrom | pre-receive-hook.js:12-72 | definition, without a contract of its own: the object loop from object i on, ending with the completion line and `done`; the RunFrom lemmas state its properties |
| PreReceiveHook.Continue | pre-receive-hook.js:12-72 | definition, without a contract of its own: stop at object i's failure or go on with object i + 1 |
| PreReceiveHook.Hook | pre-receive-hook.js:1-73 | definition, without a contract of its own: the greeting lines followed by the object loop; HookPolicy, HookCompletes, HookCounters and HookKeepsKeys state its properties |
| PreReceiveHook.ExaminePolicy | pre-receive-hook.js:17-58 | a commit or tag whose key lookup fails is rejected with that error, one with no keys is rejected for that, and one that passes was signed by a key the lookup returned, which is still cached for its author or tagger afterwards |
| PreReceiveHook.ExamineRejects | pre-receive-hook.js:32-67 | once keys are found, a missing signature and another verify error each come from one of those keys, with either loop; with the corrected loop, "no key matched" means every key resolved to false |
| PreReceiveHook.ExamineAccepts | pre-receive-hook.js:32-58 | corrected loop only: when the first key whose verify result is not false signed the object, the object passes |
| PreReceiveHook.CheckObjectPolicy | pre-receive-hook.js:15-58 | an object that passes was read, and when it is a commit or tag, a key cached for its author or tagger signed it |
| PreReceiveHook.PassedKept | pre-receive-hook.js:52 | demotions and new cache entries by later objects keep an earlier object's pass valid |
| PreReceiveHook.CheckObjectLines | pre-receive-hook.js:13-14 | each object prints exactly one counter, its own position out of the total, and never the completion line |
| PreReceiveHook.CheckObjectCache | pre-receive-hook.js:15-58 | checking an object keeps every cached email and the multiset of its keys; trees and blobs are skipped without output beyond the counter and without touching the cache |
| PreReceiveHook.RunFromCompletes | pre-receive-hook.js:12-72 | the completion line appears exactly when no object from i on failed |
| PreReceiveHook.ContinueCompletes | pre-receive-hook.js:12-72 | after an object, the completion line appears exactly when no object failed |
| PreReceiveHook.RunFromEndsComplete | pre-receive-hook.js:71-72 | when every object passes, the completion line is the last line |
| PreReceiveHook.ContinueEndsComplete | pre-receive-hook.js:71-72 | after a passing object, the completion line, when reached, is last |
| PreReceiveHook.RunFromCountsAll | pre-receive-hook.js:12-14 | when every object passes, the counters printed are i+1, ..., n in order |
| PreReceiveHook.ContinueCountsAll | pre-receive-hook.js:12-14 | the same, continued after object i |
| PreReceiveHook.RunFromCountsToFailure | pre-receive-hook.js:12-67 | when an object fails, the counters printed run i+1, i+2, ... up to that object and stop there |
| PreReceiveHook.ContinueCountsToFailure | pre-receive-hook.js:12-67 | the same, continued after object i |
| PreReceiveHook.RunFromCache | pre-receive-hook.js:12-69 | the whole run keeps every cached email and the multiset of its keys |
| PreReceiveHook.ContinueCache | pre-receive-hook.js:12-69 | the same, continued after object i |
| PreReceiveHook.RunFromPolicy | pre-receive-hook.js:12-72 | when the run from object i reaches the completion line, every object from i on was read and, if a commit or tag, signed by a key cached for its author or tagger |
| PreReceiveHook.ContinuePolicy | pre-receive-hook.js:12-72 | the same, continued after object i |
| PreReceiveHook.HookPolicy | pre-receive-hook.js:1-73 | the script reaches `done` only when every pushed object was read and every commit and tag among them was signed by a key of its author or tagger in the final cache |
| PreReceiveHook.HookCompletes | pre-receive-hook.js:1-73 | the script reaches `done` exactly when no object failed, and then the completion line is its last line |
| PreReceiveHook.HookCounters | pre-receive-hook.js:10-14 | the counters run 1..n when every object passes, and 1..k for the k-th object when it fails |
| PreReceiveHook.HookKeepsKeys | pre-receive-hook.js:1-73 | the script loses and duplicates no cached key of any email |
| PreReceiveHook.VerifyObject | pre-receive-hook.js:13-68 | one pass of the object loop, on the shared cache, has exactly CheckObject's output, failure and cache |
| PreReceiveHook.ExamineObject | pre-receive-hook.js:16-67 | a commit or tag is examined as Examine says: checking line, lookup, the in-place key loop (`TryKeys` as written, `TryKeysSnapshot` corrected), and the failure for a lookup error, no keys, no signature, another verify error or no match |
| PreReceiveHook.RunHook | pre-receive-hook.js:1-73 | the script, run in place over the cache, has exactly Hook's outcome, output and final cache |
| Middleware.Pad | middleware.js:20-22 | the result has length min(length+4, 7): the string's own characters followed by spaces |
| Middleware.Dispatch | middleware.js:51-76 | definition, without a contract of its own: the first-match chain of the handler, with a TypeError when a POST preflight test throws; its properties are DispatchThrows and DispatchPicksTheMatch |
| Middleware.DispatchThrows | middleware.js:51-57 | dispatch throws exactly on an OPTIONS request without access-control-request-headers that is not an info/refs preflight |
| Middleware.DispatchPicksTheMatch | middleware.js:51-76 | otherwise dispatch picks the one operation the request matches, or none, so the order of the tests never matters; push, pull and info/refs get the gitdir parsed for them |
| Middleware.DirectReply | middleware.js:51-75 | the handler itself answers the three preflights and fetch, and leaves info/refs and push to the backend and the receive-pack branch |
| Middleware.LastChunkTail | middleware.js:85-91 | as written, `last20` is undefined exactly when every chunk is null, and otherwise at most 20 bytes |
| Middleware.LastChunkTailIsLastChunk | middleware.js:85-91 | as written, `last20` is the last 20 bytes of the latest chunk that is not null |
| Middleware.PackFileName | middleware.js:93-98 | definition, without a contract of its own: "pack-" + hex + ".pack" when 20 bytes were kept, "pack-.pack" otherwise; PackFileNameCarriesChecksum states what the name carries |
| Middleware.IdxFileName | middleware.js:137 | a name ending in ".pack" has that extension replaced by ".idx"; any other name is unchanged |
| Middleware.PackFileNameCarriesChecksum | middleware.js:83-98 | the pack name is "pack-….pack"; it is 50 characters long exactly when a 20-byte checksum was kept, and its 40 hex digits read back to that checksum; the idx name (middleware.js:137) swaps ".pack" for ".idx" |
| Middleware.StreamTail | middleware.js:85-91 | corrected: the last min(20, length) bytes of the whole stream |
| Middleware.StreamTailNamesPack | middleware.js:85-98 | with the correction, a stream of at least 20 bytes names the pack after its last 20 bytes, and a shorter one keeps "pack-.pack" |
| Middleware.StreamTailAgreesOnLongLastChunk | middleware.js:86-91 | when the last chunk is not null and holds 20 bytes or more, the correction changes nothing |
| Middleware.ShortLastChunkLosesChecksum | middleware.js:86-98 | chunks of 40 and 10 bytes leave the as-written name "pack-.pack", while the corrected name carries the checksum |
| Middleware.ProgressLine | middleware.js:110-114 | definition, without a contract of its own: the lead, the phase, a space and "loaded/total" in decimal; ProgressLineLead states how the lead is chosen |
| Middleware.ProgressLineLead | middleware.js:109-114 | a progress line opens with "\n" exactly on a change of phase or for the first report, with "\r" otherwise, then the phase and a space |
| Middleware.Caught | middleware.js:161-166 | definition, without a contract of its own: nothing when the client hung up, otherwise one error event with the message, a newline and the stack |
| Middleware.PushEvents | middleware.js:78-171 | definition, without a contract of its own: the try block's events, the catch block's when something threw, then fin; FinExactlyOnceLast and RefVerdicts state its properties |
| Middleware.AcceptedTranscript | middleware.js:78-171 | a push that passes every step writes: indexing, its progress, "Indexing completed", unpack ok, the hook banner, the hook output, one ok per update in order, the logo, fin |
| Middleware.IndexFailureTranscript | middleware.js:107-171 | a pack that fails to index gives: indexing, progress, "Oh dear!", unpack with the error, one ng "Could not index pack" per update in order, the error, fin |
| Middleware.HookRejectionTranscript | middleware.js:107-171 | a hook rejection gives the hook output followed by the error and fin, and no ref verdict |
| Middleware.HookWrites | middleware.js:140-160 | the hook stage writes no fin and no error event |
| Middleware.MoveWrites | middleware.js:120-160 | the move stage writes no fin and no error event |
| Middleware.IndexWrites | middleware.js:107-132 | the indexing stage writes no fin and no error event |
| Middleware.TryBlock | middleware.js:78-160 | the `try` block writes no fin and no error event |
| Middleware.FinExactlyOnceLast | middleware.js:161-171 | fin is written exactly once, as the last event, on every path; an error event, carrying the message and the stack, is written just before fin exactly when something other than "Client is done" was thrown, and never otherwise |
| Middleware.UnpackReported | middleware.js:116-132 | unpack ok after a successful indexing, unpack with the message after a failed one; a failure before the headers writes at most the error and fin |
| Middleware.NgOutcomes | middleware.js:126-128 | the ng loop rejects every update once, in update order |
| Middleware.OkOutcomes | middleware.js:155-157 | the ok loop accepts every update once, in update order |
| Middleware.HookRefs | middleware.js:140-157 | the hook stage accepts every ref, in order, exactly when the hook passes, and reports none otherwise |
| Middleware.IndexRefs | middleware.js:116-157 | indexing failure rejects every ref; otherwise all are accepted when the move and the hook pass, and none is reported if either fails |
| Middleware.RefVerdicts | middleware.js:78-171 | the refs share one outcome: all ok when every step succeeds, all ng when indexing fails, none reported on any other failure |
| Middleware.Response.Write | middleware.js:107 | a write appends one event and leaves the status alone |
| Middleware.Response.End | middleware.js:170 | ending the response keeps its body and status |
| Middleware.WriteAll | middleware.js:155-157 | writing a list of events appends them all, in order |
| Middleware.LandPack | middleware.js:85-91 | the `for await` loop as written leaves `last20` as LastChunkTail of the chunks |
| Middleware.LandStream | middleware.js:85-91 | the corrected loop keeps the last 20 bytes of everything streamed, ending with StreamTail |
| Middleware.ReportProgress | middleware.js:109-114 | the listener, remembering the current phase, writes exactly the progress lines ProgressLine specifies |
| Middleware.RunPreReceive | middleware.js:140-160 | the hook stage writes HookWrites' events and throws its error |
| Middleware.MovePack | middleware.js:120-138 | the move stage writes MoveWrites' events and throws its error |
| Middleware.IndexPack | middleware.js:107-132 | the indexing stage writes IndexWrites' events and throws its error |
| Middleware.TryReceive | middleware.js:78-160 | the `try` block writes TryBlock's events and throws its error; the status becomes 200 with the headers; the pack is named once landed, after the stream's last 20 bytes |
| Middleware.ReceivePack | middleware.js:76-171 | the branch writes PushEvents and ends the response; the status is 200 after the headers or when the client hung up, and unchanged otherwise; the pack name carries the stream's checksum |

## Left out

- sandbox.js, http-server.js and logo.js are not part of this model. The hook's sandbox, its 10-second timeout and its `done` callback are represented only by the hook's outcome and console lines in `Middleware.PushSteps`.
- The hook script calls `console.fatal`, which the sandbox's console does not define. Every way the script stops without `done` is modelled as an abstract `PreReceiveHook.Failure`, not as the exception that call would raise.
- `PreReceiveHook.RunHook` and `Middleware.ReceivePack` are not connected: the receive-pack branch takes the hook's outcome as given.
- The info/refs branch (middleware.js:60-71) is only routed: `serveInfoRefs` and its output belong to the git backend.
- Wire encoding: `serveReceivePack` and the response headers (middleware.js:103-104) are left out. Status events stay a datatype.
- File system effects are outcomes, not state:
  - `mkdtemp`, the write stream and the rename into quarantine are one `quarantine` outcome;
  - the two renames and `rmdir` into the repository are one `move` outcome.
- The event emitter used for indexing progress is left out. The reports are given as a list.
- Left out as I/O or foreign calls:
  - `tick`, `sleep`, `logIncoming`/`logOutgoing` and `chalk`;
  - the `core` name drawn from `Math.random`;
  - the hook-script lookup through `resolveRef`/`readObject` with its fallback file (middleware.js:143-151).
- The GitHub requests of lookup.js are the oracles `search` and `keysOf`. The module's broken default export (lookup.js:5-10) and its demo block (lookup.js:66-68) are left out.
- KeyLookup.UsernameOf: when total_count is 1 but `items[0]` is missing, the source throws inside the request callback. This is modelled as the error `MissingItem`.
- KeyLookup.KeyCache.Demote: requires the email to be cached with a non-empty list. Otherwise the source throws, or pushes `undefined` onto an empty list; these paths are not modelled.
- PreReceiveHook.ExamineRejects: its "no key matched" clause is stated for the corrected loop only. For the script as written it is false: with keys A, B, C and only B signing, the script reports no match although B signed. The throw clauses hold of both forms.
- PreReceiveHook.ExamineAccepts: requires the corrected loop. The script as written rejects keys A, B, C with only B signing, although B is the first key whose result is not false.
- Middleware.TryReceive: uses the corrected `LandStream`. The loop as written is `Middleware.LandPack`.
- Middleware.ReceivePack: names the pack after the last 20 bytes of the whole stream, not after `last20` as written (`Middleware.LastChunkTail`, `Middleware.LandPack`). The two differ when the last non-null chunk is shorter than 20 bytes.
- PreReceiveHook.EmailOf: an annotated tag with no tagger makes the script throw on `tag.tagger.email` (pre-receive-hook.js:17). The model takes the tagger's email as a given field and does not model that throw.
- KeyLookup.LookupSpec: the cache is a plain object (lookup.js:2), so `if (cache[email])` (lookup.js:51) also succeeds for names inherited from `Object.prototype`, such as "constructor". The model's cache is a map that holds only emails actually stored, so such an email would be looked up instead.
- Requests that match no branch (`Middleware.Unrouted`) get no answer, and `next` is never called. The model records the route and nothing more.
- Concurrency is left out: concurrent pushes, and the interleaving of the asynchronous writes.
- The request's capabilities and the push route's `service` (which parse-request.js never sets) are left out.

## Findings

| source | as written | input that shows it | evidently intended | confidence | as-written member | corrected member |
|---|---|---|---|---|---|---|
| pre-receive-hook.js:32-58 | `for (const key of keys)` walks the cached array itself, which `demote` (lookup.js:58-61) rotates during the walk. After each demotion the next key slides into the position just tried and is skipped, and the last key is tried again. | keys ["A", "B", "C"] cached for the email, only B signed the object: the keys tried are A, C, C and the push is rejected | try every key once, in trust order, and accept with B | medium, not executed | PreReceiveHook.LiveSearchSkipsAKey | PreReceiveHook.SnapshotFindsSigningKey |
| middleware.js:85-98 | `last20` keeps the last 20 bytes of the latest non-null chunk, not of the stream | a pack streamed as chunks of 40 and 10 bytes: `last20` holds 10 bytes and the pack keeps the name "pack-.pack" | name the pack after the last 20 bytes of the whole stream, its checksum | medium, not executed | Middleware.ShortLastChunkLosesChecksum | Middleware.StreamTailNamesPack |
