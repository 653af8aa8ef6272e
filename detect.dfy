/**
 * Mode detection (lib/index.js lines 54, 63 and 72): is the request's body
 * already in memory, and under which property?
 */
module Detection {

  import opened Engine

  /**
   * The value of one request property. Only its kind matters to the adapter:
   * absent, a Buffer (with its bytes), or present but not a Buffer (a string,
   * decoded JSON, ...). `Buffer.isBuffer` becomes the test `Buffer?`.
   */
  datatype Property = Missing | Buffer(bytes: Bytes) | NotBuffer

  /** The parts of a request that the adapter reads when it classifies it. */
  datatype Request = Request(headers: Headers, rawBody: Property, body: Property)

  /** The request properties that may carry a pre-buffered body. */
  datatype Slot =
    | RawBody   // req.rawBody, set by Firebase / Google Cloud Functions
    | Body      // req.body, set by body-parser's raw parser

  /** How the body reaches the engine. */
  datatype Mode = Buffered(slot: Slot, payload: Bytes) | Streaming

  function Probe(req: Request, slot: Slot): Property
  {
    match slot
    case RawBody => req.rawBody
    case Body => req.body
  }

  /** The order in which the slots are tried. */
  const ProbeOrder: seq<Slot> := [RawBody, Body]

  /**
   * Reference definition: the first slot of `order` that holds a Buffer, or
   * Streaming when none does.
   */
  function FirstBuffer(req: Request, order: seq<Slot>): (m: Mode)
    ensures m.Buffered? ==> m.slot in order && Probe(req, m.slot) == Buffer(m.payload)
    ensures m.Streaming? <==> forall s :: s in order ==> !Probe(req, s).Buffer?
    ensures order != [] && Probe(req, order[0]).Buffer? ==> m.Buffered? && m.slot == order[0]
  {
    if order == [] then Streaming
    else if Probe(req, order[0]).Buffer? then Buffered(order[0], Probe(req, order[0]).bytes)
    else FirstBuffer(req, order[1..])
  }

  /** The classification `parse` makes before it feeds the engine. */
  function Detect(req: Request): (m: Mode)
    ensures m.Buffered? ==> Probe(req, m.slot) == Buffer(m.payload)
    ensures m.Streaming? <==> !req.rawBody.Buffer? && !req.body.Buffer?
  {
    if req.rawBody.Buffer? then Buffered(RawBody, req.rawBody.bytes)
    else if req.body.Buffer? then Buffered(Body, req.body.bytes)
    else Streaming
  }

  /** The classification is the first-match search over the slots in priority order. */
  lemma DetectIsFirstBuffer(req: Request)
    ensures Detect(req) == FirstBuffer(req, ProbeOrder)
  {
  }

  /** rawBody is tried first: once it holds a Buffer, body is never looked at. */
  lemma RawBodyTakesPriority(req: Request, other: Property)
    requires req.rawBody.Buffer?
    ensures Detect(req) == Buffered(RawBody, req.rawBody.bytes)
    ensures Detect(req.(body := other)) == Detect(req)
  {
  }

  /**
   * Detection is by type, not by presence: a property that is present but not
   * a Buffer is treated exactly like an absent one.
   */
  lemma OnlyBuffersCount(req: Request, p: Property, q: Property)
    requires !p.Buffer? && !q.Buffer?
    ensures Detect(req.(rawBody := p)) == Detect(req.(rawBody := q))
    ensures Detect(req.(body := p)) == Detect(req.(body := q))
  {
  }

  /** The headers play no part in the classification. */
  lemma DetectIgnoresHeaders(req: Request, h: Headers)
    ensures Detect(req.(headers := h)) == Detect(req)
  {
  }

}
