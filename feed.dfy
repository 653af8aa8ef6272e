/**
 * The feed adapter of the overridden `parse` (lib/index.js lines 37-124):
 * buffered replay or live stream handling, the request's 'end', 'error',
 * 'aborted' and 'data' handlers, and the replaced `pause`/`resume`.
 */
module Feed {

  import opened Wrappers
  import opened Engine
  import opened Detection
  import Aggregation

  /** The engine's own flags as the adapter reads them: `self.error` is set, `this.ended` is set. */
  datatype EngineFlags = EngineFlags(error: bool, ended: bool)

  /**
   * What happens after `parse` returns, one event at a time. Each event
   * carries the outcome of the call its handler makes (the engine and the
   * request are not part of this model), so the model records which calls the
   * adapter makes and in what order, whatever they do.
   */
  datatype Event =
    | Data(chunk: Bytes, write: Outcome)      // req 'data'; what engine.write(chunk) does
    | End(finish: Option<Error>)              // req 'end'; what engine._parser.end() returns, if it is called
    | RequestError(err: Error)                // req 'error'
    | Aborted                                 // req 'aborted'
    | Pause(request: Outcome)                 // someone calls form.pause(); what req.pause() does
    | Resume(request: Outcome)                // someone calls form.resume(); what req.resume() does
    | EngineSets(flags: EngineFlags)          // the engine changes its own flags

  /** The `_error` call a catch block makes when the call it guards threw. */
  function Reported(o: Outcome): (calls: seq<Call>)
    ensures o.Ok? <==> calls == []
    ensures o.Throws? ==> calls == [ReportError(o.err)]
  {
    if o.Throws? then [ReportError(o.err)] else []
  }

  /** The calls `parse` makes before it returns, for a request classified as `mode`. */
  function SetupCalls(mode: Mode, headers: Headers, headersWrite: Outcome, bodyWrite: Outcome): seq<Call>
  {
    match mode
    case Buffered(_, payload) =>
      [WriteHeaders(headers)]
      + (if headersWrite.Throws? then [ReportError(headersWrite.err)] else [Write(payload)] + Reported(bodyWrite))
    case Streaming =>
      [WriteHeaders(headers)] + Reported(headersWrite)
  }

  /** The replaced `pause`/`resume`: the request call, then `_error` if it threw before the engine ended. */
  function FlowCalls(request: Call, flags: EngineFlags, o: Outcome): seq<Call>
  {
    [request] + (if o.Throws? && !flags.ended then [ReportError(o.err)] else [])
  }

  /** The calls made in handling one event; `streaming` says whether the streaming handlers are installed. */
  function StepCalls(streaming: bool, flags: EngineFlags, e: Event): seq<Call>
  {
    match e
    case Data(chunk, write) => if streaming then [Write(chunk)] + Reported(write) else []
    case End(finish) =>
      if flags.error then []
      else [ParserEnd] + (if finish.Some? then [ReportError(finish.value)] else [])
    case RequestError(err) => [ReportError(err)]
    case Aborted => if streaming then [EmitAborted, ReportError(Error(AbortMessage))] else []
    case Pause(request) => if streaming then FlowCalls(RequestPause, flags, request) else []
    case Resume(request) => if streaming then FlowCalls(RequestResume, flags, request) else []
    case EngineSets(_) => []
  }

  function NextFlags(flags: EngineFlags, e: Event): EngineFlags
  {
    if e.EngineSets? then e.flags else flags
  }

  function FlagsAfter(flags: EngineFlags, es: seq<Event>): EngineFlags
    decreases |es|
  {
    if es == [] then flags else FlagsAfter(NextFlags(flags, es[0]), es[1..])
  }

  /** The calls made in handling the events `es` in order, starting with the engine's flags `flags`. */
  function Replay(streaming: bool, flags: EngineFlags, es: seq<Event>): seq<Call>
    decreases |es|
  {
    if es == [] then []
    else StepCalls(streaming, flags, es[0]) + Replay(streaming, NextFlags(flags, es[0]), es[1..])
  }

  // ---------------------------------------------------------------------------
  // Reference counts over an event sequence

  /** The chunks of the 'data' events, in delivery order. */
  function Chunks(es: seq<Event>): seq<Bytes>
  {
    if es == [] then [] else (if es[0].Data? then [es[0].chunk] else []) + Chunks(es[1..])
  }

  /** The number of 'end' events. */
  function Ends(es: seq<Event>): nat
  {
    if es == [] then 0 else (if es[0].End? then 1 else 0) + Ends(es[1..])
  }

  /** The number of 'end' events that arrive while the engine's error flag is clear. */
  function CleanEnds(flags: EngineFlags, es: seq<Event>): nat
    decreases |es|
  {
    if es == [] then 0
    else (if es[0].End? && !flags.error then 1 else 0) + CleanEnds(NextFlags(flags, es[0]), es[1..])
  }

  /** The number of 'aborted' events. */
  function Aborts(es: seq<Event>): nat
  {
    if es == [] then 0 else (if es[0].Aborted? then 1 else 0) + Aborts(es[1..])
  }

  // ---------------------------------------------------------------------------
  // Properties of the setup

  /**
   * Every path calls `writeHeaders` first; if it throws, the only other call
   * is `_error` with that exception. No path makes a flow-control or abort
   * call.
   */
  lemma SetupOrder(mode: Mode, headers: Headers, headersWrite: Outcome, bodyWrite: Outcome)
    ensures SetupCalls(mode, headers, headersWrite, bodyWrite)[0] == WriteHeaders(headers)
    ensures headersWrite.Throws? ==> SetupCalls(mode, headers, headersWrite, bodyWrite) == [WriteHeaders(headers), ReportError(headersWrite.err)]
    ensures forall c :: c in SetupCalls(mode, headers, headersWrite, bodyWrite) ==> c.WriteHeaders? || c.Write? || c.ReportError?
  {
  }

  /**
   * Both buffered paths write the payload once, and only if `writeHeaders`
   * returned; the streaming path writes no body during setup.
   */
  lemma SetupWrites(mode: Mode, headers: Headers, headersWrite: Outcome, bodyWrite: Outcome)
    ensures Writes(SetupCalls(mode, headers, headersWrite, bodyWrite))
         == if mode.Buffered? && headersWrite.Ok? then [mode.payload] else []
  {
    var calls := SetupCalls(mode, headers, headersWrite, bodyWrite);
    NoWrites(Reported(bodyWrite));
    if mode.Buffered? && headersWrite.Ok? {
      assert calls == [WriteHeaders(headers), Write(mode.payload)] + Reported(bodyWrite);
      WritesAppend([WriteHeaders(headers), Write(mode.payload)], Reported(bodyWrite));
    } else {
      assert calls == [WriteHeaders(headers)] + Reported(headersWrite);
      NoWrites(calls);
    }
  }

  // ---------------------------------------------------------------------------
  // Properties of the event handling

  lemma {:induction false} ReplayAppend(streaming: bool, flags: EngineFlags, a: seq<Event>, b: seq<Event>)
    ensures Replay(streaming, flags, a + b) == Replay(streaming, flags, a) + Replay(streaming, FlagsAfter(flags, a), b)
    decreases |a|
  {
    if a == [] {
      assert a + b == b;
    } else {
      assert (a + b)[1..] == a[1..] + b;
      ReplayAppend(streaming, NextFlags(flags, a[0]), a[1..], b);
    }
  }

  /** Handling the first `i + 1` events is handling the first `i`, then event `i`. */
  lemma ReplayStep(streaming: bool, flags: EngineFlags, es: seq<Event>, i: nat, before: seq<Call>, now: EngineFlags)
    requires i < |es|
    requires now == FlagsAfter(flags, es[..i])
    ensures before + Replay(streaming, flags, es[..i + 1])
         == (before + Replay(streaming, flags, es[..i])) + StepCalls(streaming, now, es[i])
    ensures FlagsAfter(flags, es[..i + 1]) == NextFlags(now, es[i])
  {
    assert es[..i + 1] == es[..i] + [es[i]];
    ReplayAppend(streaming, flags, es[..i], [es[i]]);
    FlagsAfterAppend(flags, es[..i], [es[i]]);
    var f := FlagsAfter(flags, es[..i]);
    assert Replay(streaming, f, [es[i]]) == StepCalls(streaming, f, es[i]) + Replay(streaming, NextFlags(f, es[i]), []);
  }

  lemma {:induction false} FlagsAfterAppend(flags: EngineFlags, a: seq<Event>, b: seq<Event>)
    ensures FlagsAfter(flags, a + b) == FlagsAfter(FlagsAfter(flags, a), b)
    decreases |a|
  {
    if a == [] {
      assert a + b == b;
    } else {
      assert (a + b)[1..] == a[1..] + b;
      FlagsAfterAppend(NextFlags(flags, a[0]), a[1..], b);
    }
  }

  /**
   * Streaming: every chunk is written, in delivery order, whatever the earlier
   * writes did: a failing write is reported but does not stop later ones.
   * Nothing else is ever written.
   */
  lemma {:induction false} StreamingWritesEveryChunk(flags: EngineFlags, es: seq<Event>)
    ensures Writes(Replay(true, flags, es)) == Chunks(es)
    decreases |es|
  {
    if es != [] {
      StreamingWritesEveryChunk(NextFlags(flags, es[0]), es[1..]);
      WritesAppend(StepCalls(true, flags, es[0]), Replay(true, NextFlags(flags, es[0]), es[1..]));
      StepWrites(flags, es[0]);
    }
  }

  /** One streaming step writes the event's chunk if it is a 'data' event, and nothing otherwise. */
  lemma StepWrites(flags: EngineFlags, e: Event)
    ensures Writes(StepCalls(true, flags, e)) == if e.Data? then [e.chunk] else []
  {
    if e.Data? {
      NoWrites(Reported(e.write));
      WritesAppend([Write(e.chunk)], Reported(e.write));
    } else {
      NoWrites(StepCalls(true, flags, e));
    }
  }

  lemma {:induction false} NoWrites(calls: seq<Call>)
    requires forall c :: c in calls ==> !c.Write?
    ensures Writes(calls) == []
  {
    if calls != [] {
      assert calls[0] in calls;
      NoWrites(calls[1..]);
    }
  }

  /**
   * Buffered: no 'data', 'aborted', `pause` or `resume` handling is
   * installed, so the only calls events cause are `_parser.end()` and
   * `_error`.
   */
  lemma {:induction false} BufferedOnlyEndsAndReports(flags: EngineFlags, es: seq<Event>)
    ensures forall c :: c in Replay(false, flags, es) ==> c == ParserEnd || c.ReportError?
    decreases |es|
  {
    if es != [] {
      BufferedOnlyEndsAndReports(NextFlags(flags, es[0]), es[1..]);
    }
  }

  /**
   * `_parser.end()` is called once for each request 'end' that arrives while
   * the engine's error flag is clear, and never otherwise.
   */
  lemma {:induction false} ParserEndPerCleanEnd(streaming: bool, flags: EngineFlags, es: seq<Event>)
    ensures Count(Replay(streaming, flags, es), ParserEnd) == CleanEnds(flags, es)
    ensures CleanEnds(flags, es) <= Ends(es)
    decreases |es|
  {
    if es != [] {
      ParserEndPerCleanEnd(streaming, NextFlags(flags, es[0]), es[1..]);
      CountAppend(StepCalls(streaming, flags, es[0]), Replay(streaming, NextFlags(flags, es[0]), es[1..]), ParserEnd);
      StepCounts(streaming, flags, es[0]);
    }
  }

  /**
   * Once the engine has set its error flag and keeps it set (it may still
   * change `ended`), no 'end' reaches `_parser.end()`.
   */
  lemma {:induction false} ErrorSuppressesParserEnd(streaming: bool, ended: bool, es: seq<Event>)
    requires forall k :: 0 <= k < |es| && es[k].EngineSets? ==> es[k].flags.error
    ensures ParserEnd !in Replay(streaming, EngineFlags(true, ended), es)
  {
    NoCleanEnds(ended, es);
    ParserEndPerCleanEnd(streaming, EngineFlags(true, ended), es);
  }

  lemma {:induction false} NoCleanEnds(ended: bool, es: seq<Event>)
    requires forall k :: 0 <= k < |es| && es[k].EngineSets? ==> es[k].flags.error
    ensures CleanEnds(EngineFlags(true, ended), es) == 0
    decreases |es|
  {
    if es != [] {
      var next := NextFlags(EngineFlags(true, ended), es[0]);
      assert next == EngineFlags(true, next.ended);
      assert forall k :: 0 <= k < |es[1..]| && es[1..][k].EngineSets? ==> es[1..][k].flags.error by {
        forall k | 0 <= k < |es[1..]| ensures es[1..][k] == es[k + 1] { }
      }
      NoCleanEnds(next.ended, es[1..]);
    }
  }

  /** Every 'aborted' emission in `calls` is immediately followed by the "Request aborted" error. */
  predicate AbortsPaired(calls: seq<Call>)
  {
    forall i :: 0 <= i < |calls| && calls[i] == EmitAborted ==>
      i + 1 < |calls| && calls[i + 1] == ReportError(Error(AbortMessage))
  }

  lemma PairedAppend(a: seq<Call>, b: seq<Call>)
    requires AbortsPaired(a) && AbortsPaired(b)
    ensures AbortsPaired(a + b)
  {
    forall i | 0 <= i < |a + b| && (a + b)[i] == EmitAborted
      ensures i + 1 < |a + b| && (a + b)[i + 1] == ReportError(Error(AbortMessage))
    {
      if i < |a| {
        assert a[i] == EmitAborted;
      } else {
        assert b[i - |a|] == EmitAborted;
      }
    }
  }

  /**
   * Streaming: every 'aborted' event emits 'aborted' once, and each emission
   * is immediately followed by an error whose message is "Request aborted",
   * however much data came before.
   */
  lemma {:induction false} EveryAbortReported(flags: EngineFlags, es: seq<Event>)
    ensures Count(Replay(true, flags, es), EmitAborted) == Aborts(es)
    ensures Count(Replay(true, flags, es), ReportError(Error(AbortMessage))) >= Aborts(es)
    ensures AbortsPaired(Replay(true, flags, es))
    decreases |es|
  {
    if es != [] {
      var first := StepCalls(true, flags, es[0]);
      var rest := Replay(true, NextFlags(flags, es[0]), es[1..]);
      EveryAbortReported(NextFlags(flags, es[0]), es[1..]);
      CountAppend(first, rest, EmitAborted);
      CountAppend(first, rest, ReportError(Error(AbortMessage)));
      StepCounts(true, flags, es[0]);
      PairedAppend(first, rest);
    }
  }

  /** What one event contributes to the counts of `_parser.end()`, 'aborted' and the abort error. */
  lemma StepCounts(streaming: bool, flags: EngineFlags, e: Event)
    ensures Count(StepCalls(streaming, flags, e), ParserEnd) == if e.End? && !flags.error then 1 else 0
    ensures Count(StepCalls(streaming, flags, e), EmitAborted) == if streaming && e.Aborted? then 1 else 0
    ensures Count(StepCalls(streaming, flags, e), ReportError(Error(AbortMessage))) >= if streaming && e.Aborted? then 1 else 0
  {
  }

  /**
   * The body bytes the engine receives over a whole parse: a buffered request
   * has its payload written exactly once if the headers went in, and nothing
   * else; a streaming request has exactly its chunks written, in order.
   */
  lemma ParseWrites(req: Request, headersWrite: Outcome, bodyWrite: Outcome, es: seq<Event>)
    ensures Detect(req).Buffered? ==>
      Writes(SetupCalls(Detect(req), req.headers, headersWrite, bodyWrite) + Replay(false, EngineFlags(false, false), es))
      == if headersWrite.Ok? then [Detect(req).payload] else []
    ensures Detect(req).Streaming? ==>
      Writes(SetupCalls(Detect(req), req.headers, headersWrite, bodyWrite) + Replay(true, EngineFlags(false, false), es))
      == Chunks(es)
  {
    var mode := Detect(req);
    var setup := SetupCalls(mode, req.headers, headersWrite, bodyWrite);
    var events := Replay(mode.Streaming?, EngineFlags(false, false), es);
    SetupWrites(mode, req.headers, headersWrite, bodyWrite);
    WritesAppend(setup, events);
    if mode.Streaming? {
      StreamingWritesEveryChunk(EngineFlags(false, false), es);
    } else {
      BufferedOnlyEndsAndReports(EngineFlags(false, false), es);
      NoWrites(events);
    }
  }

  // ---------------------------------------------------------------------------
  // The engine instance, as the adapter drives it

  class Form {
    /** The request had no Buffer body, so the streaming handlers and the replaced pause/resume are installed. */
    const streaming: bool
    /** `this.error`, set only by the engine. */
    var error: bool
    /** `this.ended`, set only by the engine. */
    var ended: bool
    /** The calls made so far. */
    var trace: seq<Call>

    function Flags(): EngineFlags
      reads this
    {
      EngineFlags(error, ended)
    }

    /**
     * `parse(req)` on a fresh engine, up to `return this`: install the
     * request's 'error' and 'end' handlers, classify the request, and either
     * replay the buffered body or install the streaming handlers and feed the
     * headers. `headersWrite` and `bodyWrite` are what `writeHeaders` and
     * `write` do. `during` are the notifications the engine emits while the
     * buffered `write` runs; they reach `listeners`, the aggregation handlers
     * installed before the body is fed, with the engine's `multiples`.
     */
    constructor Setup<V, F>(req: Request, headersWrite: Outcome, bodyWrite: Outcome,
                            listeners: Aggregation.Aggregator<V, F>, multiples: bool,
                            during: seq<Aggregation.Notification<V, F>>)
      modifies listeners
      ensures streaming == Detect(req).Streaming?
      ensures Flags() == EngineFlags(false, false)
      ensures trace == SetupCalls(Detect(req), req.headers, headersWrite, bodyWrite)
      ensures listeners.State()
           == if Detect(req).Buffered? && headersWrite.Ok?
              then Aggregation.DeliverAll(listeners.subscribed, multiples, old(listeners.State()), during)
              else old(listeners.State())
    {
      streaming := Detect(req).Streaming?;
      error, ended := false, false;
      trace := [];
      new;
      trace := trace + [WriteHeaders(req.headers)];
      if !streaming {
        if headersWrite.Throws? {
          trace := trace + [ReportError(headersWrite.err)];
        } else {
          trace := trace + [Write(Detect(req).payload)];
          listeners.Run(multiples, during);
          if bodyWrite.Throws? {
            trace := trace + [ReportError(bodyWrite.err)];
          }
        }
      } else if headersWrite.Throws? {
        trace := trace + [ReportError(headersWrite.err)];
      }
    }

    /** The request's 'data' handler (streaming only): write the chunk, report a throw, carry on. */
    method OnData(chunk: Bytes, write: Outcome)
      modifies this
      ensures trace == old(trace) + if streaming then [Write(chunk)] + Reported(write) else []
      ensures Flags() == old(Flags())
    {
      if streaming {
        trace := trace + [Write(chunk)];
        if write.Throws? {
          trace := trace + [ReportError(write.err)];
        }
      }
    }

    /** The request's 'end' handler: nothing once the engine is in error, else `_parser.end()` and report its error. */
    method OnEnd(finish: Option<Error>)
      modifies this
      ensures error ==> trace == old(trace)
      ensures !error ==> trace == old(trace) + [ParserEnd] + if finish.Some? then [ReportError(finish.value)] else []
      ensures Flags() == old(Flags())
    {
      if error {
        return;
      }
      trace := trace + [ParserEnd];
      if finish.Some? {
        trace := trace + [ReportError(finish.value)];
      }
    }

    /** The request's 'error' handler. */
    method OnRequestError(err: Error)
      modifies this
      ensures trace == old(trace) + [ReportError(err)]
      ensures Flags() == old(Flags())
    {
      trace := trace + [ReportError(err)];
    }

    /** The request's 'aborted' handler (streaming only). */
    method OnAborted()
      modifies this
      ensures trace == old(trace) + if streaming then [EmitAborted, ReportError(Error(AbortMessage))] else []
      ensures Flags() == old(Flags())
    {
      if streaming {
        trace := trace + [EmitAborted];
        trace := trace + [ReportError(Error(AbortMessage))];
      }
    }

    /**
     * The replaced `pause` (streaming only; on a buffered request the engine's
     * own `pause` is left in place and `paused` is None): true when
     * `req.pause()` returned, false when it threw, reported unless ended.
     */
    method Pause(request: Outcome) returns (paused: Option<bool>)
      modifies this
      ensures streaming ==> paused == Some(request.Ok?)
      ensures streaming ==> trace == old(trace) + [RequestPause] + if request.Throws? && !ended then [ReportError(request.err)] else []
      ensures !streaming ==> paused.None? && trace == old(trace)
      ensures Flags() == old(Flags())
    {
      if !streaming {
        return None;
      }
      trace := trace + [RequestPause];
      if request.Throws? {
        if !ended {
          trace := trace + [ReportError(request.err)];
        }
        return Some(false);
      }
      return Some(true);
    }

    /** The replaced `resume`, as `Pause` with `req.resume()`. */
    method Resume(request: Outcome) returns (resumed: Option<bool>)
      modifies this
      ensures streaming ==> resumed == Some(request.Ok?)
      ensures streaming ==> trace == old(trace) + [RequestResume] + if request.Throws? && !ended then [ReportError(request.err)] else []
      ensures !streaming ==> resumed.None? && trace == old(trace)
      ensures Flags() == old(Flags())
    {
      if !streaming {
        return None;
      }
      trace := trace + [RequestResume];
      if request.Throws? {
        if !ended {
          trace := trace + [ReportError(request.err)];
        }
        return Some(false);
      }
      return Some(true);
    }

    /** The engine, not the adapter, changes its flags (inside `_error`, `write`, ...). */
    method EngineChanges(flags: EngineFlags)
      modifies this
      ensures Flags() == flags && trace == old(trace)
    {
      error, ended := flags.error, flags.ended;
    }

    method Dispatch(e: Event)
      modifies this
      ensures trace == old(trace) + StepCalls(streaming, old(Flags()), e)
      ensures Flags() == NextFlags(old(Flags()), e)
    {
      match e
      case Data(chunk, write) => OnData(chunk, write);
      case End(finish) => OnEnd(finish);
      case RequestError(err) => OnRequestError(err);
      case Aborted => OnAborted();
      case Pause(request) => var _ := Pause(request);
      case Resume(request) => var _ := Resume(request);
      case EngineSets(flags) => EngineChanges(flags);
    }

    /** The events after `parse` returns, handled one at a time on the single event loop. */
    method Run(es: seq<Event>)
      modifies this
      ensures trace == old(trace) + Replay(streaming, old(Flags()), es)
      ensures Flags() == FlagsAfter(old(Flags()), es)
    {
      ghost var trace0, flags0 := trace, EngineFlags(error, ended);
      var i := 0;
      while i < |es|
        invariant 0 <= i <= |es|
        invariant trace == trace0 + Replay(streaming, flags0, es[..i])
        invariant EngineFlags(error, ended) == FlagsAfter(flags0, es[..i])
      {
        ReplayStep(streaming, flags0, es, i, trace0, EngineFlags(error, ended));
        Dispatch(es[i]);
        i := i + 1;
      }
      assert es[..i] == es;
    }
  }

  /**
   * `form.parse(req, cb)`: the aggregation handlers first (installed only
   * when a callback is supplied), then the feed adapter's setup, so that the
   * notifications the buffered `write` emits (`during`) are already collected.
   */
  method Parse<V, F>(req: Request, hasCallback: bool, multiples: bool, headersWrite: Outcome, bodyWrite: Outcome,
                     during: seq<Aggregation.Notification<V, F>>)
    returns (results: Aggregation.Aggregator<V, F>, form: Form)
    ensures results.subscribed == hasCallback
    ensures results.State()
         == if Detect(req).Buffered? && headersWrite.Ok?
            then Aggregation.DeliverAll(hasCallback, multiples, Aggregation.Aggregate(map[], map[], []), during)
            else Aggregation.Aggregate(map[], map[], [])
    ensures form.streaming == Detect(req).Streaming?
    ensures form.Flags() == EngineFlags(false, false)
    ensures form.trace == SetupCalls(Detect(req), req.headers, headersWrite, bodyWrite)
  {
    results := new Aggregation.Aggregator<V, F>(hasCallback);
    form := new Form.Setup(req, headersWrite, bodyWrite, results, multiples, during);
  }

}
