/** The response writers: `ResponseWriter` (status and size bookkeeping over
    an http.ResponseWriter, with the header emitted at most once) and
    `TelescopeResponseWriter`, which copies every write into `Body`. */
module ResponseWriters {

  /** The wrapped http.ResponseWriter: the body bytes it has received and
      the status codes of the headers it has been asked to emit. It accepts
      every write in full. */
  class HttpStream {
    var data: seq<char>
    var headers: seq<int>

    constructor ()
      ensures data == [] && headers == []
    {
      data, headers := [], [];
    }

    method Write(b: seq<char>) returns (n: nat)
      modifies this
      ensures n == |b|
      ensures data == old(data) + b && headers == old(headers)
    {
      data := data + b;
      n := |b|;
    }

    method WriteHeader(code: int)
      modifies this
      ensures headers == old(headers) + [code] && data == old(data)
    {
      headers := headers + [code];
    }
  }

  /** Size value that means "nothing written yet". */
  const NoWritten: int := -1
  const DefaultStatus: int := 200

  class ResponseWriter {
    var stream: HttpStream
    var size: int
    var status: int
    /** Lengths of the stream's body and header log at the last reset. */
    ghost var dataMark: nat
    ghost var headerMark: nat

    /** `size` is -1 before anything is written and then counts the body
        bytes forwarded since the reset; at most one header was emitted since
        the reset, and none while nothing is written. */
    ghost predicate Valid()
      reads this, stream
    {
      && NoWritten <= size
      && status > 0
      && dataMark <= |stream.data|
      && headerMark <= |stream.headers| <= headerMark + 1
      && (!Written() ==> |stream.data| == dataMark && |stream.headers| == headerMark)
      && (Written() ==> size == |stream.data| - dataMark)
    }

    function Written(): (r: bool)
      reads this
      ensures r <==> Size() != NoWritten
    {
      size != NoWritten
    }

    function Status(): int
      reads this
    {
      status
    }

    function Size(): int
      reads this
    {
      size
    }

    constructor (writer: HttpStream)
      ensures Valid()
      ensures stream == writer && size == NoWritten && status == DefaultStatus
    {
      stream := writer;
      size := NoWritten;
      status := DefaultStatus;
      dataMark := |writer.data|;
      headerMark := |writer.headers|;
    }

    /** What the getters report on a valid writer: Written exactly when Size
        is not negative, Size then counts the body bytes the stream received
        since the reset, nothing reached the stream while nothing is written,
        and Status is a positive code. */
    lemma Observations()
      requires Valid()
      ensures Written() <==> Size() >= 0
      ensures Written() ==> Size() == |stream.data| - dataMark
      ensures !Written() ==> Size() == NoWritten && |stream.data| == dataMark && |stream.headers| == headerMark
      ensures Status() > 0
    {
    }

    /** reset: rebind to `writer`, nothing written, status 200. */
    method Reset(writer: HttpStream)
      modifies this
      ensures Valid() && !Written()
      ensures stream == writer && size == NoWritten && status == DefaultStatus
    {
      stream := writer;
      size := NoWritten;
      status := DefaultStatus;
      dataMark := |writer.data|;
      headerMark := |writer.headers|;
    }

    /** WriteHeader only records the code, and only a positive one. */
    method WriteHeader(code: int)
      requires Valid()
      modifies this`status
      ensures Valid()
      ensures status == if code > 0 then code else old(status)
    {
      if code > 0 && status != code {
        status := code;
      }
    }

    /** WriteHeaderNow emits the header with the current status the first
        time only, and marks the response written with size 0. */
    method WriteHeaderNow()
      requires Valid()
      modifies this`size, stream
      ensures Valid() && Written()
      ensures stream == old(stream) && stream.data == old(stream.data)
      ensures !old(Written()) ==> size == 0 && stream.headers == old(stream.headers) + [status]
      ensures old(Written()) ==> size == old(size) && stream.headers == old(stream.headers)
    {
      if !Written() {
        size := 0;
        stream.WriteHeader(status);
      }
    }

    /** Write: emit the header if needed, forward the bytes, and add the
        count the stream reports to `size`. */
    method Write(data: seq<char>) returns (n: nat)
      requires Valid()
      modifies this`size, stream
      ensures Valid() && Written()
      ensures n == |data|
      ensures stream == old(stream) && stream.data == old(stream.data) + data
      ensures size == (if old(Written()) then old(size) else 0) + n
      ensures stream.headers == old(stream.headers) + (if old(Written()) then [] else [status])
    {
      WriteHeaderNow();
      n := stream.Write(data);
      size := size + n;
    }

    /** WriteString goes through io.WriteString and behaves as Write. */
    method WriteString(s: string) returns (n: nat)
      requires Valid()
      modifies this`size, stream
      ensures Valid() && Written()
      ensures n == |s|
      ensures stream == old(stream) && stream.data == old(stream.data) + s
      ensures size == (if old(Written()) then old(size) else 0) + n
      ensures stream.headers == old(stream.headers) + (if old(Written()) then [] else [status])
    {
      WriteHeaderNow();
      n := stream.Write(s);
      size := size + n;
    }

    /** Flush emits the header if needed; the stream's own flush is not modelled. */
    method Flush()
      requires Valid()
      modifies this`size, stream
      ensures Valid() && Written()
      ensures stream == old(stream) && stream.data == old(stream.data)
      ensures stream.headers == old(stream.headers) + (if old(Written()) then [] else [status])
    {
      WriteHeaderNow();
    }

    /** Hijack marks an unwritten response as written (size 0) without
        emitting a header; handing over the connection is not modelled. */
    method Hijack()
      requires Valid()
      modifies this`size
      ensures Valid() && Written()
      ensures size == if old(size) < 0 then 0 else old(size)
    {
      if size < 0 {
        size := 0;
      }
    }
  }

  /** A ResponseWriter whose every byte is also appended to `body`. */
  class TelescopeResponseWriter {
    const inner: ResponseWriter
    var body: seq<char>
    /** What the stream held before this decorator was installed. */
    ghost var before: seq<char>

    /** The stream has received exactly `body` since the decorator was installed. */
    ghost predicate Valid()
      reads this, inner, inner.stream
    {
      inner.Valid() && inner.stream.data == before + body
    }

    constructor (writer: ResponseWriter)
      requires writer.Valid()
      ensures Valid() && inner == writer && body == []
    {
      inner := writer;
      body := [];
      before := writer.stream.data;
    }

    method Write(b: seq<char>) returns (n: nat)
      requires Valid()
      modifies this`body, inner, inner.stream
      ensures Valid()
      ensures n == |b|
      ensures body == old(body) + b
      ensures inner.stream == old(inner.stream) && inner.stream.data == old(inner.stream.data) + b
      ensures inner.status == old(inner.status)
      ensures inner.size == (if old(inner.Written()) then old(inner.size) else 0) + n
      ensures inner.stream.headers == old(inner.stream.headers) + (if old(inner.Written()) then [] else [inner.status])
    {
      body := body + b;
      n := inner.Write(b);
    }

    method WriteString(s: string) returns (n: nat)
      requires Valid()
      modifies this`body, inner, inner.stream
      ensures Valid()
      ensures n == |s|
      ensures body == old(body) + s
      ensures inner.stream == old(inner.stream) && inner.stream.data == old(inner.stream.data) + s
      ensures inner.status == old(inner.status)
      ensures inner.size == (if old(inner.Written()) then old(inner.size) else 0) + n
      ensures inner.stream.headers == old(inner.stream.headers) + (if old(inner.Written()) then [] else [inner.status])
    {
      body := body + s;
      n := inner.WriteString(s);
    }
  }

  /** Writing "abc" then "def" through a fresh decorator leaves "abcdef" in
      the buffer and the same bytes, in that order, on the stream, which
      emitted exactly one header with status 200, and the size is 6. */
  method CaptureTwoWrites() returns (body: seq<char>, forwarded: seq<char>, headers: seq<int>, size: int)
    ensures body == "abcdef" && forwarded == "abcdef"
    ensures headers == [200] && size == 6
  {
    var stream := new HttpStream();
    var writer := new ResponseWriter(stream);
    var capture := new TelescopeResponseWriter(writer);
    var _ := capture.Write("abc");
    var _ := capture.WriteString("def");
    body := capture.body;
    forwarded := stream.data;
    headers := stream.headers;
    size := writer.Size();
  }

  /** WriteHeader before the first write picks the status the header carries;
      a later WriteHeader no longer reaches the stream. */
  method StatusThenWrite(code: int, late: int) returns (headers: seq<int>, status: int)
    requires code > 0 && late > 0
    ensures headers == [code] && status == late
  {
    var stream := new HttpStream();
    var writer := new ResponseWriter(stream);
    writer.WriteHeader(code);
    var _ := writer.Write("x");
    writer.WriteHeader(late);
    writer.WriteHeaderNow();
    headers := stream.headers;
    status := writer.Status();
  }
}
