/**
 * The formidable parsing engine as the adapter in lib/index.js sees it.
 * The engine itself is not part of this model: each call the adapter makes on
 * it (or, for flow control, on the request) is recorded in a trace, and what a
 * call does (returns or throws) is an input of the step that makes it.
 */
module Engine {

  newtype byte = x: int | 0 <= x < 256

  /** A Node.js Buffer, as its bytes. */
  type Bytes = seq<byte>

  /** The request's header collection, handed unchanged to `writeHeaders`. */
  type Headers = map<string, string>

  /** An error value: an exception thrown by the engine or the request, or one the adapter creates. */
  datatype Error = Error(message: string)

  /** The message of the error the adapter reports when the request is aborted. */
  const AbortMessage: string := "Request aborted"

  /** What a call that may throw did: it returned, or it threw `err`. */
  datatype Outcome = Ok | Throws(err: Error)

  /** A call the adapter makes. */
  datatype Call =
    | WriteHeaders(headers: Headers)   // engine.writeHeaders(req.headers)
    | Write(chunk: Bytes)              // engine.write(buffer)
    | ParserEnd                        // engine._parser.end()
    | ReportError(err: Error)          // engine._error(err)
    | EmitAborted                      // engine.emit('aborted')
    | RequestPause                     // req.pause()
    | RequestResume                    // req.resume()

  /** The chunks handed to `write`, in the order of the calls. */
  function Writes(trace: seq<Call>): (w: seq<Bytes>)
    ensures forall x :: x in w <==> Write(x) in trace
  {
    if trace == [] then []
    else (if trace[0].Write? then [trace[0].chunk] else []) + Writes(trace[1..])
  }

  /** How many times `c` occurs in the trace. */
  function Count(trace: seq<Call>, c: Call): (n: nat)
    ensures n <= |trace|
    ensures n == 0 <==> c !in trace
  {
    if trace == [] then 0
    else (if trace[0] == c then 1 else 0) + Count(trace[1..], c)
  }

  lemma {:induction false} WritesAppend(a: seq<Call>, b: seq<Call>)
    ensures Writes(a + b) == Writes(a) + Writes(b)
  {
    if a != [] {
      assert (a + b)[1..] == a[1..] + b;
      WritesAppend(a[1..], b);
    } else {
      assert a + b == b;
    }
  }

  lemma {:induction false} CountAppend(a: seq<Call>, b: seq<Call>, c: Call)
    ensures Count(a + b, c) == Count(a, c) + Count(b, c)
  {
    if a != [] {
      assert (a + b)[1..] == a[1..] + b;
      CountAppend(a[1..], b, c);
    } else {
      assert a + b == b;
    }
  }

}
