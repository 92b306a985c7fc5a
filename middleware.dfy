/** The request handler (middleware.js): first-match dispatch over the
    request predicates, and the receive-pack branch that lands the pushed
    pack in a quarantine directory, has it indexed, moves it into the
    repository, runs the pre-receive hook and streams status events back
    on one response. The git backend (request parsing, indexing, the
    sandboxed hook) is represented by its outcomes; the response body is a
    list of status events rather than their wire encoding. */
module Middleware {
  import opened Common
  import opened Identify
  import opened Parse

  /** `(str + '    ').slice(0, 7)`, used to align the logged method names */
  function Pad(s: string): (r: string)
    ensures |r| == Min(|s| + 4, 7)
    ensures forall i :: 0 <= i < |r| ==> r[i] == (if i < |s| then s[i] else ' ')
  {
    Prefix(s + "    ", 7)
  }

  // ---------------------------------------------------------------------
  // Dispatch

  datatype Route =
    | PreflightInfoRefsRoute
    | PreflightPullRoute
    | PreflightPushRoute
    | InfoRefsRoute(gitdir: string, service: Option<string>)
    | PullRoute(gitdir: string)
    | PushRoute(gitdir: string)
    | Unrouted   // no branch matches: the handler neither answers nor calls `next`

  /** The `if ... else if` chain of the handler. Err when a preflight test
      throws on a missing access-control-request-headers header. */
  function Dispatch(r: Request): Result<Route, string> {
    if PreflightInfoRefs(r) then Ok(PreflightInfoRefsRoute)
    else match PreflightPull(r)
      case None => Err("TypeError")
      case Some(true) => Ok(PreflightPullRoute)
      case Some(false) =>
        match PreflightPush(r)
        case None => Err("TypeError")
        case Some(true) => Ok(PreflightPushRoute)
        case Some(false) =>
          if InfoRefs(r) then Ok(InfoRefsRoute(ParseInfoRefs(r).gitdir, r.service))
          else if Pull(r) then Ok(PullRoute(ParsePull(r)))
          else if Push(r) then Ok(PushRoute(ParsePush(r)))
          else Ok(Unrouted)
  }

  function KindOf(route: Route): Option<Kind> {
    match route
    case PreflightInfoRefsRoute => Some(PreflightInfoRefsKind)
    case PreflightPullRoute => Some(PreflightPullKind)
    case PreflightPushRoute => Some(PreflightPushKind)
    case InfoRefsRoute(_, _) => Some(InfoRefsKind)
    case PullRoute(_) => Some(PullKind)
    case PushRoute(_) => Some(PushKind)
    case Unrouted => None
  }

  /** Dispatch throws exactly on an OPTIONS request that lacks the header and
      is not an info/refs preflight. */
  lemma DispatchThrows(r: Request)
    ensures Dispatch(r).Err? <==> r.verb == "OPTIONS" && r.requestHeaders == None && !PreflightInfoRefs(r)
  {
  }

  /** Otherwise it picks the one operation the request matches, so the order
      of the tests does not matter, and hands it the gitdir parsed for that
      operation; it picks none when nothing matches. */
  lemma DispatchPicksTheMatch(r: Request)
    requires Dispatch(r).Ok?
    ensures Matches(r) == (match KindOf(Dispatch(r).value) case None => [] case Some(k) => [k])
    ensures Push(r) ==> Dispatch(r) == Ok(PushRoute(ParsePush(r)))
    ensures Pull(r) ==> Dispatch(r) == Ok(PullRoute(ParsePull(r)))
    ensures InfoRefs(r) ==> Dispatch(r) == Ok(InfoRefsRoute(ParseInfoRefs(r).gitdir, r.service))
  {
    if r.verb == "OPTIONS" {
      assert "OPTIONS" != "GET" && "OPTIONS" != "POST";
      assert !InfoRefs(r) && !Pull(r) && !Push(r);
      PreflightMatches(r);
    } else {
      assert PreflightPull(r) == Some(false) && PreflightPush(r) == Some(false) && !PreflightInfoRefs(r);
      RequestMatches(r);
    }
  }

  /** The kinds an OPTIONS request matches: the first preflight that holds */
  lemma PreflightMatches(r: Request)
    requires !InfoRefs(r) && !Pull(r) && !Push(r)
    ensures Matches(r) == if PreflightInfoRefs(r) then [PreflightInfoRefsKind]
                          else if PreflightPull(r) == Some(true) then [PreflightPullKind]
                          else if PreflightPush(r) == Some(true) then [PreflightPushKind]
                          else []
  {
  }

  /** The kinds any other request matches: the first operation that holds */
  lemma RequestMatches(r: Request)
    requires PreflightPull(r) != Some(true) && PreflightPush(r) != Some(true) && !PreflightInfoRefs(r)
    ensures Matches(r) == if InfoRefs(r) then [InfoRefsKind]
                          else if Pull(r) then [PullKind]
                          else if Push(r) then [PushKind]
                          else []
  {
  }

  /** What the handler answers by itself: 204 with an empty body to a
      preflight, 500 "Unsupported operation\n" to a fetch. The info/refs
      and push routes are answered by the backend and by `ReceivePack`. */
  datatype Reply = Reply(status: int, body: string)

  function DirectReply(route: Route): (reply: Option<Reply>)
    ensures reply.Some? <==> route.PreflightInfoRefsRoute? || route.PreflightPullRoute? || route.PreflightPushRoute? || route.PullRoute?
  {
    match route
    case PreflightInfoRefsRoute => Some(Reply(204, ""))
    case PreflightPullRoute => Some(Reply(204, ""))
    case PreflightPushRoute => Some(Reply(204, ""))
    case PullRoute(_) => Some(Reply(500, "Unsupported operation\n"))
    case _ => None
  }

  // ---------------------------------------------------------------------
  // Naming the quarantined pack

  type Chunk = Option<seq<byte>>   // None for a null chunk, which is skipped

  /** `last20` after the `for await` loop: the last (at most) 20 bytes of the
      last chunk that was not null. */
  function LastChunkTail(chunks: seq<Chunk>): (r: Option<seq<byte>>)
    ensures r.None? <==> forall j :: 0 <= j < |chunks| ==> chunks[j].None?
    ensures r.Some? ==> |r.value| <= 20
  {
    if chunks == [] then None
    else match chunks[|chunks| - 1]
      case Some(bytes) => Some(Suffix(bytes, 20))
      case None => LastChunkTail(chunks[..|chunks| - 1])
  }

  /** As written, `last20` is the tail of the last chunk that is not null:
      every chunk after it is null. */
  lemma {:induction false} LastChunkTailIsLastChunk(chunks: seq<Chunk>)
    ensures var r := LastChunkTail(chunks);
            r.Some? ==> exists j :: 0 <= j < |chunks| && chunks[j].Some? && r.value == Suffix(chunks[j].value, 20)
                                    && forall k :: j < k < |chunks| ==> chunks[k].None?
  {
    if chunks != [] {
      var n := |chunks| - 1;
      if chunks[n].None? {
        var front := chunks[..n];
        LastChunkTailIsLastChunk(front);
        assert LastChunkTail(chunks) == LastChunkTail(front);
        if LastChunkTail(front).Some? {
          var j :| 0 <= j < |front| && front[j].Some? && LastChunkTail(front).value == Suffix(front[j].value, 20)
                   && forall k :: j < k < |front| ==> front[k].None?;
          forall k | j < k < |chunks|
            ensures chunks[k].None?
          {
            if k < n {
              assert chunks[k] == front[k];
            }
          }
          assert chunks[j] == front[j];
        }
      } else {
        assert chunks[n].Some? && LastChunkTail(chunks).value == Suffix(chunks[n].value, 20);
      }
    }
  }

  /** The quarantine file name: "pack-.pack" until a 20-byte checksum names it. */
  function PackFileName(last20: Option<seq<byte>>): string {
    if last20.Some? && |last20.value| == 20 then "pack-" + Hex(last20.value) + ".pack" else "pack-.pack"
  }

  /** `filepath.replace(/\.pack$/, '.idx')` */
  function IdxFileName(pack: string): (idx: string)
    ensures EndsWith(pack, ".pack") ==> idx == pack[..|pack| - 5] + ".idx"
    ensures !EndsWith(pack, ".pack") ==> idx == pack
  {
    StripSuffix(pack, ".pack") + (if EndsWith(pack, ".pack") then ".idx" else "")
  }

  /** The pack's name carries its 20-byte checksum as 40 hex digits, which
      read back to the checksum, and the index file shares the pack's stem. */
  lemma {:induction false} PackFileNameCarriesChecksum(last20: Option<seq<byte>>)
    ensures var name := PackFileName(last20);
            && EndsWith(name, ".pack") && StartsWith(name, "pack-")
            && IdxFileName(name) == name[..|name| - 5] + ".idx"
            && (last20.Some? && |last20.value| == 20 <==> |name| == 50)
            && (|name| == 50 ==> Unhex(name[5..45]) == last20.value)
  {
    var name := PackFileName(last20);
    if last20.Some? && |last20.value| == 20 {
      var hex := Hex(last20.value);
      assert name[5..45] == hex;
      assert name[..5] == "pack-";
      assert name[45..] == ".pack";
      UnhexHex(last20.value);
    }
  }

  /** The bytes of the stream, null chunks skipped */
  function Stream(chunks: seq<Chunk>): seq<byte> {
    if chunks == [] then []
    else Stream(chunks[..|chunks| - 1]) + (match chunks[|chunks| - 1] case Some(b) => b case None => [])
  }

  /** CORRECTED: the last (at most) 20 bytes of the whole stream, however
      it was cut into chunks. */
  function StreamTail(chunks: seq<Chunk>): (r: seq<byte>)
    ensures var s := Stream(chunks);
            |r| == Min(20, |s|) && r == s[|s| - |r|..]
  {
    Suffix(Stream(chunks), 20)
  }

  /** The corrected name carries the stream's last 20 bytes whenever the
      stream holds at least 20 bytes, and is the placeholder otherwise. */
  lemma StreamTailNamesPack(chunks: seq<Chunk>)
    ensures var name := PackFileName(Some(StreamTail(chunks)));
            var s := Stream(chunks);
            && (|s| >= 20 ==> |name| == 50 && Unhex(name[5..45]) == s[|s| - 20..])
            && (|s| < 20 ==> name == "pack-.pack")
  {
    var s, t := Stream(chunks), StreamTail(chunks);
    PackFileNameCarriesChecksum(Some(t));
    if |s| >= 20 {
      assert |t| == 20 && t == s[|s| - 20..];
    } else {
      assert |t| != 20;
    }
  }

  /** The correction changes nothing when the last chunk is not null and
      holds at least 20 bytes. */
  lemma StreamTailAgreesOnLongLastChunk(chunks: seq<Chunk>)
    requires chunks != [] && chunks[|chunks| - 1].Some? && |chunks[|chunks| - 1].value| >= 20
    ensures LastChunkTail(chunks) == Some(StreamTail(chunks))
  {
    var last := chunks[|chunks| - 1].value;
    var s := Stream(chunks);
    assert s == Stream(chunks[..|chunks| - 1]) + last;
    assert s[|s| - 20..] == last[|last| - 20..];
  }

  /** FINDING, as written: a 50-byte stream whose last chunk holds 10 bytes
      leaves `last20` 10 bytes long, so the pack keeps the placeholder name
      "pack-.pack" although the stream carries a 20-byte checksum. */
  lemma ShortLastChunkLosesChecksum()
    ensures var chunks: seq<Chunk> := [Some(seq(40, _ => 0 as byte)), Some(seq(10, _ => 1 as byte))];
            && PackFileName(LastChunkTail(chunks)) == "pack-.pack"
            && |Stream(chunks)| == 50
            && |PackFileName(Some(StreamTail(chunks)))| == 50
  {
    var chunks: seq<Chunk> := [Some(seq(40, _ => 0 as byte)), Some(seq(10, _ => 1 as byte))];
    assert chunks[..1][..0] == [];
    assert chunks[..1] == [chunks[0]];
    assert Stream(chunks[..1]) == seq(40, _ => 0 as byte);
    PackFileNameCarriesChecksum(Some(StreamTail(chunks)));
  }

  /** Keeping the last n bytes of what came so far, then appending, keeps
      the last n bytes of everything. */
  lemma {:induction false} SuffixOfAppend(a: seq<byte>, b: seq<byte>, n: nat)
    ensures Suffix(Suffix(a, n) + b, n) == Suffix(a + b, n)
  {
    var x, y := Suffix(Suffix(a, n) + b, n), Suffix(a + b, n);
    assert |x| == |y|;
    forall i | 0 <= i < |x|
      ensures x[i] == y[i]
    {
      var k := |x| - i;   // position counted from the end
      if k <= |b| {
        assert x[i] == b[|b| - k] == y[i];
      } else {
        assert x[i] == a[|a| - (k - |b|)] == y[i];
      }
    }
  }

  // ---------------------------------------------------------------------
  // Indexing progress

  datatype Progress = Progress(phase: string, loaded: nat, total: nat)

  /** A progress message opens a new line when its phase differs from the
      previous message's (always, for the first) and rewrites the current
      line ("\r") otherwise. */
  function ProgressLine(reports: seq<Progress>, i: nat): string
    requires i < |reports|
  {
    var p := reports[i];
    var lead := if i == 0 || reports[i - 1].phase != p.phase then "\n" else "\r";
    lead + p.phase + " " + Decimal(p.loaded) + "/" + Decimal(p.total)
  }

  /** A progress line opens with "\n" exactly on a change of phase (and for
      the first report), with "\r" otherwise, and then names the phase. */
  lemma ProgressLineLead(reports: seq<Progress>, i: nat)
    requires i < |reports|
    ensures var line := ProgressLine(reports, i);
            var phase := reports[i].phase;
            && |line| > |phase| + 1
            && (line[0] == '\n' <==> i == 0 || reports[i - 1].phase != phase)
            && (line[0] == '\r' <==> i > 0 && reports[i - 1].phase == phase)
            && line[1..|phase| + 1] == phase
            && line[|phase| + 1] == ' '
  {
  }

  // ---------------------------------------------------------------------
  // The receive-pack branch

  datatype StatusEvent =
    | Print(message: string)
    | Unpack(result: string)             // "ok" or the indexing error's message
    | RefOk(ref: string)
    | RefNg(ref: string, reason: string)
    | Error(message: string)
    | Fin

  datatype RefUpdate = RefUpdate(fullRef: string, oldOid: string, newOid: string)

  /** A thrown error: its message and stack */
  datatype Failure = Failure(message: string, stack: string)

  const ClientDone: string := "Client is done"

  datatype ReceivePackRequest = ReceivePackRequest(updates: seq<RefUpdate>, packfile: seq<Chunk>)

  /** The outcome of every step the branch delegates, in the order it takes
      them: parsing the request, landing the pack in quarantine (creating
      the directory, reading the stream, renaming the file), the progress
      reports and result of indexing, moving pack and index into the
      repository, and the sandboxed hook with its console output. The logo
      printed at the end comes from logo.js, which is not part of this model. */
  datatype PushSteps = PushSteps(
    request: Result<ReceivePackRequest, Failure>,
    quarantine: Option<Failure>,
    progress: seq<Progress>,
    index: Result<seq<string>, Failure>,
    move: Option<Failure>,
    hookOutput: seq<string>,
    hook: Option<Failure>,
    logo: string)

  function ProgressEvents(reports: seq<Progress>): seq<StatusEvent> {
    seq(|reports|, i requires 0 <= i < |reports| => Print(ProgressLine(reports, i)))
  }

  function NgEvents(updates: seq<RefUpdate>): seq<StatusEvent> {
    seq(|updates|, i requires 0 <= i < |updates| => RefNg(updates[i].fullRef, "Could not index pack"))
  }

  function OkEvents(updates: seq<RefUpdate>): seq<StatusEvent> {
    seq(|updates|, i requires 0 <= i < |updates| => RefOk(updates[i].fullRef))
  }

  function PrintEvents(messages: seq<string>): seq<StatusEvent> {
    seq(|messages|, i requires 0 <= i < |messages| => Print(messages[i]))
  }

  /** What the `try` block writes and the error it throws, if any */
  datatype Attempt = Attempt(events: seq<StatusEvent>, thrown: Option<Failure>)

  /** `prefix` written, then what `a` writes and throws */
  function Then(prefix: seq<StatusEvent>, a: Attempt): Attempt {
    Attempt(prefix + a.events, a.thrown)
  }

  /** After the move into the repository: the hook runs and its console
      output is relayed; only when it passes are the refs reported ok,
      followed by the logo. */
  function HookWrites(p: PushSteps, updates: seq<RefUpdate>): (a: Attempt)
    ensures forall e :: e in a.events ==> !e.Fin? && !e.Error?
  {
    Then([Print("\nRunning pre-receive hook\n")] + PrintEvents(p.hookOutput),
         if p.hook.Some? then Attempt([], p.hook) else Attempt(OkEvents(updates) + [Print("\n" + p.logo)], None))
  }

  /** After a successful indexing: "unpack ok", then the move of pack and
      index into the repository, then the hook. */
  function MoveWrites(p: PushSteps, updates: seq<RefUpdate>): (a: Attempt)
    ensures forall e :: e in a.events ==> !e.Fin? && !e.Error?
  {
    Then([Print("\nIndexing completed"), Unpack("ok")],
         if p.move.Some? then Attempt([], p.move) else HookWrites(p, updates))
  }

  /** From the response headers on: indexing with its progress; when it
      fails, the unpack error and every ref rejected with "Could not index
      pack", then the error is rethrown. */
  function IndexWrites(p: PushSteps, updates: seq<RefUpdate>): (a: Attempt)
    ensures forall e :: e in a.events ==> !e.Fin? && !e.Error?
  {
    Then([Print("Indexing packfile...")] + ProgressEvents(p.progress),
         match p.index
         case Err(f) => Attempt([Print("\nOh dear!"), Unpack(f.message)] + NgEvents(updates), Some(f))
         case Ok(_) => MoveWrites(p, updates))
  }

  /** The `try` block: nothing is written before the request has been
      parsed and the pack landed in quarantine. */
  function TryBlock(p: PushSteps): (a: Attempt)
    ensures forall e :: e in a.events ==> !e.Fin? && !e.Error?
  {
    match p.request
    case Err(f) => Attempt([], Some(f))
    case Ok(req) =>
      if p.quarantine.Some? then Attempt([], p.quarantine)
      else IndexWrites(p, req.updates)
  }

  /** The `catch` block: an error event, unless the client hung up */
  function Caught(f: Failure): seq<StatusEvent> {
    if f.message == ClientDone then [] else [Error(f.message + "\n" + f.stack)]
  }

  /** Everything the branch writes: the `try` block, the `catch` block when
      something threw, and `fin` from the `finally` block. */
  function PushEvents(p: PushSteps): seq<StatusEvent> {
    var a := TryBlock(p);
    a.events + (if a.thrown.Some? then Caught(a.thrown.value) else []) + [Fin]
  }

  /** fin is written exactly once, as the last event, on every path, and
      an error event, carrying the message and the stack just before fin,
      exactly when a step threw something other than the client hanging
      up. */
  lemma FinExactlyOnceLast(p: PushSteps)
    ensures var events := PushEvents(p);
            && events[|events| - 1] == Fin
            && Fin !in events[..|events| - 1]
            && (forall e :: e in events ==> e.Error? ==> TryBlock(p).thrown.Some? && TryBlock(p).thrown.value.message != ClientDone)
            && (TryBlock(p).thrown.Some? && TryBlock(p).thrown.value.message != ClientDone ==>
                  |events| >= 2 && events[|events| - 2] == Error(TryBlock(p).thrown.value.message + "\n" + TryBlock(p).thrown.value.stack))
  {
  }

  /** The unpack status is reported whenever indexing was attempted: "ok"
      when it succeeded, its error message when it failed. A failure before
      the response headers (parsing the request, landing the pack) writes
      only the error, if any, and fin. */
  lemma UnpackReported(p: PushSteps)
    ensures Indexed(p) ==> Unpack("ok") in PushEvents(p)
    ensures p.request.Ok? && p.quarantine.None? && p.index.Err? ==> Unpack(p.index.error.message) in PushEvents(p)
    ensures !(p.request.Ok? && p.quarantine.None?) ==>
              |PushEvents(p)| <= 2 && forall e :: e in PushEvents(p) ==> e.Error? || e.Fin?
  {
    if p.request.Ok? && p.quarantine.None? {
      var events := PushEvents(p);
      var n := 1 + |p.progress|;
      if p.index.Ok? {
        assert events[n + 1] == Unpack("ok");
      } else {
        assert events[n + 1] == Unpack(p.index.error.message);
      }
    }
  }

  /** The whole transcript of a push that passes every step: the indexing
      report, "unpack ok", the hook's output, one ok per update in update
      order, the logo, fin. */
  lemma AcceptedTranscript(p: PushSteps)
    requires Indexed(p) && p.move.None? && p.hook.None?
    ensures PushEvents(p)
            == [Print("Indexing packfile...")] + ProgressEvents(p.progress)
               + [Print("\nIndexing completed"), Unpack("ok"), Print("\nRunning pre-receive hook\n")]
               + PrintEvents(p.hookOutput) + OkEvents(p.request.value.updates)
               + [Print("\n" + p.logo), Fin]
  {
  }

  /** The whole transcript of a push whose pack fails to index: "Oh dear!",
      the unpack error, one ng per update in update order, the error, fin. */
  lemma IndexFailureTranscript(p: PushSteps)
    requires p.request.Ok? && p.quarantine.None? && p.index.Err?
    requires p.index.error.message != ClientDone
    ensures var f := p.index.error;
            PushEvents(p)
            == [Print("Indexing packfile...")] + ProgressEvents(p.progress)
               + [Print("\nOh dear!"), Unpack(f.message)] + NgEvents(p.request.value.updates)
               + [Error(f.message + "\n" + f.stack), Fin]
  {
  }

  /** A hook that rejects the push: after its output come the error and fin,
      and no ref is reported. */
  lemma HookRejectionTranscript(p: PushSteps)
    requires Indexed(p) && p.move.None? && p.hook.Some? && p.hook.value.message != ClientDone
    ensures var f := p.hook.value;
            PushEvents(p)
            == [Print("Indexing packfile...")] + ProgressEvents(p.progress)
               + [Print("\nIndexing completed"), Unpack("ok"), Print("\nRunning pre-receive hook\n")]
               + PrintEvents(p.hookOutput)
               + [Error(f.message + "\n" + f.stack), Fin]
  {
  }

  /** (ref, accepted) for each ref status event, in order */
  function RefOutcomes(events: seq<StatusEvent>): seq<(string, bool)> {
    if events == [] then []
    else
      (match events[0]
       case RefOk(r) => [(r, true)]
       case RefNg(r, _) => [(r, false)]
       case _ => [])
      + RefOutcomes(events[1..])
  }

  lemma {:induction false} RefOutcomesAppend(a: seq<StatusEvent>, b: seq<StatusEvent>)
    ensures RefOutcomes(a + b) == RefOutcomes(a) + RefOutcomes(b)
  {
    if a != [] {
      assert (a + b)[1..] == a[1..] + b;
      RefOutcomesAppend(a[1..], b);
    } else {
      assert a + b == b;
    }
  }

  lemma {:induction false} NoRefOutcomes(events: seq<StatusEvent>)
    requires forall e :: e in events ==> !e.RefOk? && !e.RefNg?
    ensures RefOutcomes(events) == []
  {
    if events != [] {
      NoRefOutcomes(events[1..]);
    }
  }

  /** Every update with one verdict, in update order */
  function Verdicts(updates: seq<RefUpdate>, accepted: bool): seq<(string, bool)> {
    seq(|updates|, i requires 0 <= i < |updates| => (updates[i].fullRef, accepted))
  }

  lemma {:induction false} NgOutcomes(updates: seq<RefUpdate>)
    ensures RefOutcomes(NgEvents(updates)) == Verdicts(updates, false)
  {
    if updates != [] {
      NgOutcomes(updates[1..]);
      assert NgEvents(updates)[1..] == NgEvents(updates[1..]);
      assert Verdicts(updates, false) == [(updates[0].fullRef, false)] + Verdicts(updates[1..], false);
    }
  }

  lemma {:induction false} OkOutcomes(updates: seq<RefUpdate>)
    ensures RefOutcomes(OkEvents(updates)) == Verdicts(updates, true)
  {
    if updates != [] {
      OkOutcomes(updates[1..]);
      assert OkEvents(updates)[1..] == OkEvents(updates[1..]);
      assert Verdicts(updates, true) == [(updates[0].fullRef, true)] + Verdicts(updates[1..], true);
    }
  }

  predicate Indexed(p: PushSteps) {
    p.request.Ok? && p.quarantine.None? && p.index.Ok?
  }

  lemma {:induction false} RefOutcomesThen(prefix: seq<StatusEvent>, a: Attempt)
    requires forall e :: e in prefix ==> !e.RefOk? && !e.RefNg?
    ensures RefOutcomes(Then(prefix, a).events) == RefOutcomes(a.events)
  {
    RefOutcomesAppend(prefix, a.events);
    NoRefOutcomes(prefix);
  }

  /** The hook stage reports every ref ok, in order, exactly when the hook passes. */
  lemma HookRefs(p: PushSteps, updates: seq<RefUpdate>)
    ensures RefOutcomes(HookWrites(p, updates).events) == if p.hook.None? then Verdicts(updates, true) else []
  {
    RefOutcomesThen([Print("\nRunning pre-receive hook\n")] + PrintEvents(p.hookOutput),
                    if p.hook.Some? then Attempt([], p.hook) else Attempt(OkEvents(updates) + [Print("\n" + p.logo)], None));
    if p.hook.None? {
      RefOutcomesAppend(OkEvents(updates), [Print("\n" + p.logo)]);
      NoRefOutcomes([Print("\n" + p.logo)]);
      OkOutcomes(updates);
    }
  }

  /** Indexing failure rejects every ref, in order; otherwise the refs are
      accepted exactly when the move and the hook both pass, and not
      mentioned at all when either fails. */
  lemma IndexRefs(p: PushSteps, updates: seq<RefUpdate>)
    ensures RefOutcomes(IndexWrites(p, updates).events)
            == if p.index.Err? then Verdicts(updates, false)
               else if p.move.None? && p.hook.None? then Verdicts(updates, true)
               else []
  {
    var after := match p.index
                 case Err(f) => Attempt([Print("\nOh dear!"), Unpack(f.message)] + NgEvents(updates), Some(f))
                 case Ok(_) => MoveWrites(p, updates);
    RefOutcomesThen([Print("Indexing packfile...")] + ProgressEvents(p.progress), after);
    if p.index.Err? {
      var f := p.index.error;
      RefOutcomesThen([Print("\nOh dear!"), Unpack(f.message)], Attempt(NgEvents(updates), Some(f)));
      NgOutcomes(updates);
    } else {
      var rest := if p.move.Some? then Attempt([], p.move) else HookWrites(p, updates);
      RefOutcomesThen([Print("\nIndexing completed"), Unpack("ok")], rest);
      if p.move.None? {
        HookRefs(p, updates);
      }
    }
  }

  /** All refs share one outcome. When every step succeeds each update is
      reported ok, once and in order; when indexing fails each is reported
      "Could not index pack"; on any other failure no ref is reported at all. */
  lemma RefVerdicts(p: PushSteps)
    ensures var outcomes := RefOutcomes(PushEvents(p));
            && (Indexed(p) && p.move.None? && p.hook.None? ==> outcomes == Verdicts(p.request.value.updates, true))
            && (p.request.Ok? && p.quarantine.None? && p.index.Err? ==> outcomes == Verdicts(p.request.value.updates, false))
            && (!(Indexed(p) && p.move.None? && p.hook.None?) && !(p.request.Ok? && p.quarantine.None? && p.index.Err?) ==> outcomes == [])
  {
    var a := TryBlock(p);
    var tail := (if a.thrown.Some? then Caught(a.thrown.value) else []) + [Fin];
    assert PushEvents(p) == a.events + tail;
    RefOutcomesAppend(a.events, tail);
    NoRefOutcomes(tail);
    assert RefOutcomes(PushEvents(p)) == RefOutcomes(a.events);
    if p.request.Ok? && p.quarantine.None? {
      IndexRefs(p, p.request.value.updates);
    } else {
      NoRefOutcomes(a.events);
    }
  }

  /** The response object: its status code and the status events written
      to its body. */
  class Response {
    var status: int
    var body: seq<StatusEvent>
    var ended: bool

    constructor ()
      ensures status == 200 && body == [] && !ended
    {
      status, body, ended := 200, [], false;
    }

    method Write(e: StatusEvent)
      requires !ended
      modifies this
      ensures body == old(body) + [e] && status == old(status) && !ended
    {
      body := body + [e];
    }

    method End()
      modifies this
      ensures ended && body == old(body) && status == old(status)
    {
      ended := true;
    }
  }

  /** Write each event in turn (the branch's `for` loops over updates and
      the hook's console output). */
  method WriteAll(res: Response, events: seq<StatusEvent>)
    requires !res.ended
    modifies res
    ensures res.body == old(res.body) + events && res.status == old(res.status) && !res.ended
  {
    var k := 0;
    while k < |events|
      invariant k <= |events|
      invariant res.body == old(res.body) + events[..k] && res.status == old(res.status) && !res.ended
    {
      res.Write(events[k]);
      assert events[..k + 1] == events[..k] + [events[k]];
      k := k + 1;
    }
  }

  /** The `for await` loop that streams the packfile into quarantine, as
      written: it keeps the last 20 bytes of every chunk that is not null,
      so `last20` ends as the tail of the last such chunk. `ReceivePack`
      uses the corrected `LandStream`. */
  method LandPack(chunks: seq<Chunk>) returns (last20: Option<seq<byte>>)
    ensures last20 == LastChunkTail(chunks)
  {
    last20 := None;
    var k := 0;
    while k < |chunks|
      invariant k <= |chunks|
      invariant last20 == LastChunkTail(chunks[..k])
    {
      assert chunks[..k + 1][..k] == chunks[..k];
      if chunks[k].Some? {
        last20 := Some(Suffix(chunks[k].value, 20));
      }
      k := k + 1;
    }
    assert chunks[..k] == chunks;
  }

  /** CORRECTED quarantine loop: keeps the last 20 bytes of everything
      streamed so far rather than of the latest chunk. */
  method LandStream(chunks: seq<Chunk>) returns (tail: seq<byte>)
    ensures tail == StreamTail(chunks)
  {
    tail := [];
    var k := 0;
    while k < |chunks|
      invariant k <= |chunks|
      invariant tail == Suffix(Stream(chunks[..k]), 20)
    {
      assert chunks[..k + 1][..k] == chunks[..k];
      if chunks[k].Some? {
        SuffixOfAppend(Stream(chunks[..k]), chunks[k].value, 20);
        tail := Suffix(tail + chunks[k].value, 20);
      } else {
        assert Stream(chunks[..k + 1]) == Stream(chunks[..k]) + [];
      }
      k := k + 1;
    }
    assert chunks[..k] == chunks;
  }

  /** The indexer's progress listener: it remembers the phase of the last
      report to choose between a new line and rewriting the current one. */
  method ReportProgress(res: Response, reports: seq<Progress>)
    requires !res.ended
    modifies res
    ensures res.body == old(res.body) + ProgressEvents(reports) && res.status == old(res.status) && !res.ended
  {
    var currentPhase: Option<string> := None;
    var j := 0;
    while j < |reports|
      invariant j <= |reports| && !res.ended && res.status == old(res.status)
      invariant res.body == old(res.body) + ProgressEvents(reports)[..j]
      invariant currentPhase == if j == 0 then None else Some(reports[j - 1].phase)
    {
      var report := reports[j];
      var np := if Some(report.phase) != currentPhase then "\n" else "\r";
      currentPhase := Some(report.phase);
      res.Write(Print(np + report.phase + " " + Decimal(report.loaded) + "/" + Decimal(report.total)));
      assert ProgressEvents(reports)[..j + 1] == ProgressEvents(reports)[..j] + [Print(ProgressLine(reports, j))];
      j := j + 1;
    }
    assert ProgressEvents(reports)[..j] == ProgressEvents(reports);
  }

  /** The hook stage of the `try` block */
  method RunPreReceive(res: Response, p: PushSteps, updates: seq<RefUpdate>) returns (thrown: Option<Failure>)
    requires !res.ended
    modifies res
    ensures res.body == old(res.body) + HookWrites(p, updates).events && thrown == HookWrites(p, updates).thrown
    ensures res.status == old(res.status) && !res.ended
  {
    thrown := None;
    res.Write(Print("\nRunning pre-receive hook\n"));
    WriteAll(res, PrintEvents(p.hookOutput));
    ghost var mid := res.body;
    if p.hook.Some? {
      thrown := p.hook;
    } else {
      WriteAll(res, OkEvents(updates));
      res.Write(Print("\n" + p.logo));
    }
    assert res.body == mid + (if p.hook.Some? then [] else OkEvents(updates) + [Print("\n" + p.logo)]);
  }

  /** Indexing succeeded: report it, then move pack and index */
  method MovePack(res: Response, p: PushSteps, updates: seq<RefUpdate>) returns (thrown: Option<Failure>)
    requires !res.ended
    modifies res
    ensures res.body == old(res.body) + MoveWrites(p, updates).events && thrown == MoveWrites(p, updates).thrown
    ensures res.status == old(res.status) && !res.ended
  {
    res.Write(Print("\nIndexing completed"));
    res.Write(Unpack("ok"));
    ghost var mid := res.body;
    assert mid == old(res.body) + [Print("\nIndexing completed"), Unpack("ok")];
    if p.move.Some? {
      thrown := p.move;
      assert res.body == mid + [];
    } else {
      thrown := RunPreReceive(res, p, updates);
    }
  }

  /** The `try` block from the response headers on */
  method IndexPack(res: Response, p: PushSteps, updates: seq<RefUpdate>) returns (thrown: Option<Failure>)
    requires !res.ended
    modifies res
    ensures res.body == old(res.body) + IndexWrites(p, updates).events && thrown == IndexWrites(p, updates).thrown
    ensures res.status == old(res.status) && !res.ended
  {
    res.Write(Print("Indexing packfile..."));
    ReportProgress(res, p.progress);
    ghost var mid := res.body;
    assert mid == old(res.body) + ([Print("Indexing packfile...")] + ProgressEvents(p.progress));
    match p.index {
      case Err(f) =>
        res.Write(Print("\nOh dear!"));
        res.Write(Unpack(f.message));
        WriteAll(res, NgEvents(updates));
        thrown := Some(f);
        assert res.body == mid + ([Print("\nOh dear!"), Unpack(f.message)] + NgEvents(updates));
      case Ok(_) =>
        thrown := MovePack(res, p, updates);
        assert res.body == mid + MoveWrites(p, updates).events;
    }
  }

  /** The `try` block: parse the request, land the pack in quarantine, then
      write the headers and go on with indexing. Returns the error thrown,
      if any, and the quarantine file name once the pack has been landed. */
  method TryReceive(res: Response, p: PushSteps) returns (thrown: Option<Failure>, packFile: Option<string>)
    requires !res.ended
    modifies res
    ensures res.body == old(res.body) + TryBlock(p).events && thrown == TryBlock(p).thrown && !res.ended
    ensures res.status == (if p.request.Ok? && p.quarantine.None? then 200 else old(res.status))
    ensures packFile.Some? <==> p.request.Ok? && p.quarantine.None?
    ensures packFile.Some? ==> packFile.value == PackFileName(Some(StreamTail(p.request.value.packfile)))
  {
    packFile := None;
    match p.request {
      case Err(f) =>
        thrown := Some(f);
      case Ok(req) =>
        var last20 := LandStream(req.packfile);
        if p.quarantine.Some? {
          thrown := p.quarantine;
        } else {
          packFile := Some(PackFileName(Some(last20)));
          res.status := 200;
          thrown := IndexPack(res, p, req.updates);
        }
    }
  }

  /** The receive-pack branch: the `try` block, then the `catch` block when
      something threw, then `fin` and the end of the response. The status
      code is 200 from the moment the headers are written, and is set to
      200 when the client hung up; otherwise it is left as it was. */
  method ReceivePack(res: Response, p: PushSteps) returns (packFile: Option<string>)
    requires !res.ended
    modifies res
    ensures res.body == old(res.body) + PushEvents(p)
    ensures res.ended
    ensures res.status == (if (p.request.Ok? && p.quarantine.None?)
                               || (TryBlock(p).thrown.Some? && TryBlock(p).thrown.value.message == ClientDone)
                           then 200 else old(res.status))
    ensures packFile.Some? <==> p.request.Ok? && p.quarantine.None?
    ensures packFile.Some? ==> packFile.value == PackFileName(Some(StreamTail(p.request.value.packfile)))
  {
    var thrown;
    thrown, packFile := TryReceive(res, p);
    if thrown.Some? {
      if thrown.value.message == ClientDone {
        res.status := 200;
      } else {
        res.Write(Error(thrown.value.message + "\n" + thrown.value.stack));
      }
    }
    res.Write(Fin);
    res.End();
  }
}
