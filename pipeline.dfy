/**
 * The two response middlewares over a mutable response: a status code, content headers and
 * a body stream that handlers write into. JSON parsing and serialisation are parameters.
 */
module Middleware {
  import opened Wrappers
  import opened Envelope

  const APPLICATION_JSON: string := "application/json"
  const INTERNAL_SERVER_ERROR: int := 500
  const SUCCESS_MESSAGE: string := "Operación exitosa"
  const FAULT_MESSAGE: string := "Error interno del servidor"
  const UNEXPECTED_MESSAGE: string := "Ha ocurrido un error inesperado. Por favor, inténtelo de nuevo más tarde."
  /** The message of the exception raised by a write to a closed stream. */
  const OBJECT_DISPOSED: string := "Cannot access a closed Stream."

  // ---------------------------------------------------------------------------
  // The envelope a response is rewritten into
  // ---------------------------------------------------------------------------

  /** The message of the error envelope for a non-success status. */
  function GetErrorMessage(statusCode: int): (m: string)
    ensures statusCode == 400 ==> m == "Solicitud incorrecta"
    ensures statusCode == 401 ==> m == "No autorizado"
    ensures statusCode == 403 ==> m == "Acceso prohibido"
    ensures statusCode == 404 ==> m == "Recurso no encontrado"
    ensures statusCode == 500 ==> m == "Error interno del servidor"
    ensures statusCode !in {400, 401, 403, 404, 500} ==> m == DEFAULT_ERROR_MESSAGE
  {
    match statusCode
    case 400 => "Solicitud incorrecta"
    case 401 => "No autorizado"
    case 403 => "Acceso prohibido"
    case 404 => "Recurso no encontrado"
    case 500 => "Error interno del servidor"
    case _ => DEFAULT_ERROR_MESSAGE
  }

  predicate IsSuccessStatus(statusCode: int)
  {
    200 <= statusCode < 300
  }

  /** What parsing a body as JSON gives: an error, the literal `null`, or a document. */
  datatype ParseResult<D> = Malformed | JsonNull | Parsed(doc: D)

  /** The `data` of a rewritten success response: an empty object, the parsed document, or the raw text. */
  datatype Payload<D> = EmptyObject | Document(doc: D) | RawText(text: string)

  /**
   * The success path's data: an empty body or a JSON `null` gives an empty object, a body that
   * parses gives its document, and a body that does not parse is kept as text.
   */
  function SuccessData<D>(body: string, parse: string -> ParseResult<D>): (p: Payload<D>)
    ensures body == "" ==> p == EmptyObject
    ensures body != "" ==> match parse(body)
      case Malformed => p == RawText(body)
      case JsonNull => p == EmptyObject
      case Parsed(d) => p == Document(d)
  {
    if body == "" then EmptyObject
    else match parse(body)
      case Malformed => RawText(body)
      case JsonNull => EmptyObject
      case Parsed(d) => Document(d)
  }

  /**
   * The envelope replacing a completed response with status `statusCode` and body `body`.
   * Statuses in [200, 300) take the success path, carrying the body's data; every other status
   * takes the error path, whose error is the raw body text and whose message depends on the status.
   */
  function Rewritten<D>(statusCode: int, body: string, parse: string -> ParseResult<D>): (e: ApiResponse<Payload<D>>)
    ensures e.success <==> IsSuccessStatus(statusCode)
    ensures e.success ==> e.data == Some(SuccessData(body, parse)) && e.message == SUCCESS_MESSAGE && e.error == ""
    ensures !e.success ==> e.data == None && e.error == body && e.message == GetErrorMessage(statusCode)
  {
    if IsSuccessStatus(statusCode) then SuccessResult(SuccessData(body, parse), SUCCESS_MESSAGE)
    else ErrorResult(body, GetErrorMessage(statusCode))
  }

  /** The envelope replacing a response whose handler threw `message`. */
  function FaultEnvelope<D>(message: string): (e: ApiResponse<Payload<D>>)
    ensures !e.success && e.data == None
    ensures e.error == message && e.message == FAULT_MESSAGE
  {
    ErrorResult(message, FAULT_MESSAGE)
  }

  /** An empty success body becomes an empty object, an unparseable one its own text. */
  lemma SuccessBodyExamples<D>(parse: string -> ParseResult<D>)
    requires parse("oops").Malformed?
    ensures Rewritten(200, "", parse).data == Some(EmptyObject)
    ensures Rewritten(204, "oops", parse).data == Some(RawText("oops"))
    ensures Rewritten(404, "", parse) == ErrorResult("", "Recurso no encontrado")
  {
  }

  // ---------------------------------------------------------------------------
  // Streams and the response
  // ---------------------------------------------------------------------------

  /** The contents after writing `s` at position `pos`: overwritten in place, extended past the end. */
  function Overwrite(data: string, pos: nat, s: string): (r: string)
    requires pos <= |data|
    ensures |r| == if pos + |s| < |data| then |data| else pos + |s|
    ensures r[..pos] == data[..pos] && r[pos..pos + |s|] == s
    ensures pos + |s| < |data| ==> r[pos + |s|..] == data[pos + |s|..]
  {
    data[..pos] + s + (if pos + |s| < |data| then data[pos + |s|..] else [])
  }

  /** Writing at the end appends; writing into an empty stream gives what was written. */
  lemma {:induction false} OverwriteAtEnd(data: string, s: string)
    ensures Overwrite(data, |data|, s) == data + s
    ensures Overwrite([], 0, s) == s
  {
    assert data[..|data|] == data;
  }

  /** A stream of characters with a position, which can be closed. */
  class Stream {
    var data: string
    var position: nat
    var disposed: bool

    ghost predicate Valid()
      reads this
    {
      position <= |data|
    }

    /** A stream holding `initial`, positioned at its end. */
    constructor (initial: string)
      ensures Valid() && data == initial && position == |initial| && !disposed
    {
      data := initial;
      position := |initial|;
      disposed := false;
    }

    /** Seek to the beginning. */
    method Rewind()
      requires Valid() && !disposed
      modifies this`position
      ensures Valid() && position == 0
    {
      position := 0;
    }

    /** Read from the position to the end. */
    method ReadToEnd() returns (s: string)
      requires Valid() && !disposed
      modifies this`position
      ensures Valid() && s == data[old(position)..] && position == |data|
    {
      s := data[position..];
      position := |data|;
    }

    /** Set the length to zero; the position is clamped to the new end. */
    method Truncate()
      requires Valid() && !disposed
      modifies this`data, this`position
      ensures Valid() && data == [] && position == 0
    {
      data := [];
      position := 0;
    }

    /** Write `s` at the position and advance past it; a closed stream refuses the write. */
    method Write(s: string) returns (ok: bool)
      requires Valid()
      modifies this`data, this`position
      ensures Valid()
      ensures ok <==> !disposed
      ensures ok ==> data == Overwrite(old(data), old(position), s) && position == old(position) + |s|
      ensures !ok ==> data == old(data) && position == old(position)
    {
      if disposed {
        return false;
      }
      data := Overwrite(data, position, s);
      position := position + |s|;
      ok := true;
    }

    /** Copy from the position to the end into `dest`. */
    method CopyTo(dest: Stream) returns (ok: bool)
      requires Valid() && dest.Valid() && dest != this && !disposed
      modifies this`position, dest`data, dest`position
      ensures Valid() && dest.Valid() && position == |data|
      ensures ok <==> !dest.disposed
      ensures ok ==> dest.data == Overwrite(old(dest.data), old(dest.position), data[old(position)..])
      ensures !ok ==> dest.data == old(dest.data)
    {
      var chunk := data[position..];
      position := |data|;
      ok := dest.Write(chunk);
    }

    method Dispose()
      modifies this`disposed
      ensures disposed
    {
      disposed := true;
    }
  }

  /** What the next handler does: completes with a status after writing output, or writes output and throws. */
  datatype InnerRun = Completes(status: int, output: string) | Throws(output: string, message: string)

  /** Whether a middleware finished the response or let an exception escape. */
  datatype Outcome = Handled | Escaped(message: string)

  /** The response a handler writes: status, content headers, and the current body stream. */
  class HttpResponse {
    var statusCode: int
    var contentType: Option<string>
    var contentLength: Option<int>
    var body: Stream
    /** How many times the next handler has run. */
    ghost var handlerRuns: nat

    ghost predicate Valid()
      reads this, body
    {
      body.Valid()
    }

    /** A fresh response: status 200, no content headers. */
    constructor (body: Stream)
      requires body.Valid()
      ensures Valid() && this.body == body
      ensures statusCode == 200 && contentType == None && contentLength == None && handlerRuns == 0
    {
      this.body := body;
      statusCode := 200;
      contentType := None;
      contentLength := None;
      handlerRuns := 0;
    }

    /** Run the next handler once: it writes its output to the current body, then completes or throws. */
    method RunNext(run: InnerRun) returns (thrown: Option<string>)
      requires Valid() && !body.disposed
      modifies this`statusCode, this`handlerRuns, body`data, body`position
      ensures Valid() && handlerRuns == old(handlerRuns) + 1
      ensures body.data == Overwrite(old(body.data), old(body.position), run.output)
      ensures body.position == old(body.position) + |run.output|
      ensures thrown == if run.Throws? then Some(run.message) else None
      ensures statusCode == if run.Completes? then run.status else old(statusCode)
    {
      handlerRuns := handlerRuns + 1;
      var _ := body.Write(run.output);
      if run.Completes? {
        statusCode := run.status;
        thrown := None;
      } else {
        thrown := Some(run.message);
      }
    }
  }

  // ---------------------------------------------------------------------------
  // The response-rewriting middleware
  // ---------------------------------------------------------------------------

  /** The envelope the response-rewriting middleware is meant to send for a handler run. */
  function ResponseEnvelope<D>(run: InnerRun, parse: string -> ParseResult<D>): (e: ApiResponse<Payload<D>>)
    ensures WellFormed(e)
    ensures e.success <==> run.Completes? && IsSuccessStatus(run.status)
    ensures run.Throws? ==> e.error == run.message && e.message == FAULT_MESSAGE
    ensures run.Completes? && !e.success ==> e.error == run.output && e.message == GetErrorMessage(run.status)
  {
    match run
    case Completes(status, output) => Rewritten(status, output, parse)
    case Throws(_, message) => FaultEnvelope(message)
  }

  /** The status the response-rewriting middleware leaves: the handler's own, or 500 on a fault. */
  function ResponseStatus(run: InnerRun): (s: int)
    ensures run.Throws? ==> s == INTERNAL_SERVER_ERROR
  {
    if run.Completes? then run.status else INTERNAL_SERVER_ERROR
  }

  /**
   * The rewrite of the buffered body as written: the buffer is rewound and read, truncated,
   * rewound, written with the envelope and copied to the client stream from where the write
   * left the position, which is the end of the buffer.
   */
  method RewriteAsWritten<D>(ctx: HttpResponse, buffer: Stream, original: Stream,
                             parse: string -> ParseResult<D>, serialize: ApiResponse<Payload<D>> -> string)
    requires buffer.Valid() && original.Valid() && buffer != original && !buffer.disposed
    modifies ctx`contentType, ctx`contentLength, buffer`data, buffer`position, original`data, original`position
    ensures buffer.Valid() && original.Valid()
    ensures ctx.contentType == Some(APPLICATION_JSON) && ctx.contentLength == None
    ensures buffer.data == serialize(Rewritten(ctx.statusCode, old(buffer.data), parse))
    ensures original.data == old(original.data)
  {
    buffer.Rewind();
    var text := buffer.ReadToEnd();
    var json := serialize(Rewritten(ctx.statusCode, text, parse));
    ctx.contentType := Some(APPLICATION_JSON);
    ctx.contentLength := None;
    buffer.Truncate();
    buffer.Rewind();
    var _ := buffer.Write(json);
    OverwriteAtEnd([], json);
    var copied := buffer.CopyTo(original);
    OverwriteAtEnd(old(original.data)[..old(original.position)], []);
  }

  /**
   * The response-rewriting middleware as written. The handler's body is buffered and the
   * envelope computed, but the client stream receives nothing, the response body is left
   * pointing at the closed buffer, and on a fault the envelope's write fails on that buffer.
   */
  method InvokeAsWritten<D>(ctx: HttpResponse, run: InnerRun,
                            parse: string -> ParseResult<D>, serialize: ApiResponse<Payload<D>> -> string)
    returns (outcome: Outcome)
    requires ctx.Valid() && !ctx.body.disposed
    modifies ctx, ctx.body
    ensures ctx.handlerRuns == old(ctx.handlerRuns) + 1
    ensures old(ctx.body).data == old(ctx.body.data)
    ensures ctx.body != old(ctx.body) && ctx.body.disposed
    ensures ctx.contentType == Some(APPLICATION_JSON) && ctx.contentLength == None
    ensures ctx.statusCode == ResponseStatus(run)
    ensures run.Completes? ==> outcome == Handled && ctx.body.data == serialize(ResponseEnvelope(run, parse))
    ensures run.Throws? ==> outcome == Escaped(OBJECT_DISPOSED)
  {
    var original := ctx.body;
    var buffer := new Stream([]);
    ctx.body := buffer;
    var thrown := ctx.RunNext(run);
    OverwriteAtEnd([], run.output);
    if thrown.None? {
      RewriteAsWritten(ctx, buffer, original, parse, serialize);
      buffer.Dispose();
      outcome := Handled;
    } else {
      buffer.Dispose();
      ctx.statusCode := INTERNAL_SERVER_ERROR;
      ctx.contentType := Some(APPLICATION_JSON);
      ctx.contentLength := None;
      var ok := ctx.body.Write(serialize(FaultEnvelope(thrown.value)));
      outcome := if ok then Handled else Escaped(OBJECT_DISPOSED);
    }
  }

  /**
   * The response-rewriting middleware as intended: the client stream is restored as the
   * response body once the handler has run, and receives exactly the serialised envelope.
   */
  method Invoke<D>(ctx: HttpResponse, run: InnerRun,
                   parse: string -> ParseResult<D>, serialize: ApiResponse<Payload<D>> -> string)
    returns (outcome: Outcome)
    requires ctx.Valid() && !ctx.body.disposed
    modifies ctx, ctx.body
    ensures outcome == Handled
    ensures ctx.handlerRuns == old(ctx.handlerRuns) + 1
    ensures ctx.body == old(ctx.body) && ctx.Valid()
    ensures ctx.contentType == Some(APPLICATION_JSON) && ctx.contentLength == None
    ensures ctx.statusCode == ResponseStatus(run)
    ensures ctx.body.data == Overwrite(old(ctx.body.data), old(ctx.body.position), serialize(ResponseEnvelope(run, parse)))
  {
    var original := ctx.body;
    var buffer := new Stream([]);
    ctx.body := buffer;
    var thrown := ctx.RunNext(run);
    OverwriteAtEnd([], run.output);
    ctx.body := original;
    var json;
    if thrown.None? {
      buffer.Rewind();
      var text := buffer.ReadToEnd();
      json := serialize(Rewritten(ctx.statusCode, text, parse));
    } else {
      ctx.statusCode := INTERNAL_SERVER_ERROR;
      json := serialize(FaultEnvelope(thrown.value));
    }
    ctx.contentType := Some(APPLICATION_JSON);
    ctx.contentLength := None;
    buffer.Truncate();
    var _ := buffer.Write(json);
    OverwriteAtEnd([], json);
    buffer.Rewind();
    var _ := buffer.CopyTo(original);
    buffer.Dispose();
    outcome := Handled;
  }

  /**
   * One successful and one faulting request through both versions, with a client stream
   * that starts empty: as written the client receives nothing and the fault escapes; as
   * intended the client receives the envelope.
   */
  method ClientStreamExample() returns (asWritten: string, intended: string, faultAsWritten: Outcome, faultIntended: string)
    ensures asWritten == "" && intended == "ok"
    ensures faultAsWritten == Escaped(OBJECT_DISPOSED) && faultIntended == "error"
  {
    var parse: string -> ParseResult<int> := s => Malformed;
    var serialize: ApiResponse<Payload<int>> -> string := (e: ApiResponse<Payload<int>>) => if e.success then "ok" else "error";
    var client1 := new Stream([]);
    var ctx1 := new HttpResponse(client1);
    var _ := InvokeAsWritten(ctx1, Completes(200, "[]"), parse, serialize);
    asWritten := client1.data;
    var client2 := new Stream([]);
    var ctx2 := new HttpResponse(client2);
    var _ := Invoke(ctx2, Completes(200, "[]"), parse, serialize);
    OverwriteAtEnd([], "ok");
    intended := client2.data;
    var client3 := new Stream([]);
    var ctx3 := new HttpResponse(client3);
    faultAsWritten := InvokeAsWritten(ctx3, Throws("", "boom"), parse, serialize);
    var client4 := new Stream([]);
    var ctx4 := new HttpResponse(client4);
    var _ := Invoke(ctx4, Throws("", "boom"), parse, serialize);
    OverwriteAtEnd([], "error");
    faultIntended := client4.data;
  }

  // ---------------------------------------------------------------------------
  // The exception middleware
  // ---------------------------------------------------------------------------

  /** The envelope the exception middleware sends for a fault with message `message`. */
  function UnexpectedFault<D>(message: string): (e: ApiResponse<Payload<D>>)
    ensures !e.success && e.data == None
    ensures e.error == message && e.message == UNEXPECTED_MESSAGE
  {
    ErrorResult(message, UNEXPECTED_MESSAGE)
  }

  /**
   * The exception middleware: the next handler runs once. When it completes the response is
   * left as the handler made it; when it throws, the status becomes 500, the content type
   * JSON, and the fault envelope is written after whatever the handler had written.
   */
  method HandleExceptions<D>(ctx: HttpResponse, run: InnerRun, serialize: ApiResponse<Payload<D>> -> string)
    requires ctx.Valid() && !ctx.body.disposed
    modifies ctx`statusCode, ctx`contentType, ctx`handlerRuns, ctx.body`data, ctx.body`position
    ensures ctx.Valid() && ctx.handlerRuns == old(ctx.handlerRuns) + 1
    ensures run.Completes? ==>
      ctx.statusCode == run.status && ctx.contentType == old(ctx.contentType) &&
      ctx.body.data == Overwrite(old(ctx.body.data), old(ctx.body.position), run.output)
    ensures run.Throws? ==>
      ctx.statusCode == INTERNAL_SERVER_ERROR && ctx.contentType == Some(APPLICATION_JSON) &&
      ctx.body.data == Overwrite(Overwrite(old(ctx.body.data), old(ctx.body.position), run.output),
                                 old(ctx.body.position) + |run.output|, serialize(UnexpectedFault(run.message)))
  {
    var thrown := ctx.RunNext(run);
    if thrown.Some? {
      ctx.contentType := Some(APPLICATION_JSON);
      ctx.statusCode := INTERNAL_SERVER_ERROR;
      var _ := ctx.body.Write(serialize(UnexpectedFault(thrown.value)));
    }
  }
}
