/** The client: a literal name prefix, a bounded batching buffer and the
    sequence of writes that reached the transport, with pure step functions
    for sending a metric, flushing and closing. */
module Statsd {
  import opened Line
  import Utf8

  /** Buffer capacity used when no positive size is given. */
  const DefaultBufSize: nat := 512

  /** `sink` lists the transport writes in order, one packet each. `open`
      turns false once Close has released the buffer. */
  datatype Client = Client(prefix: string, buf: string, sink: seq<string>, cap: nat, open: bool)

  /** What the transport answers to one write or close call. */
  datatype IoResult = IoOk | IoErr(msg: string)

  /** What an operation returns to its caller: no error, an error, or a
      nil-pointer panic from using the buffer after Close. */
  datatype Reply = Nil | Err(msg: string) | Panic

  datatype Step = Step(client: Client, reply: Reply)

  /** A client over a dialled connection with the requested buffer size. */
  function New(size: int): (c: Client)
    ensures c.open && c.buf == [] && c.sink == [] && c.prefix == []
    ensures c.cap > 0
    ensures size > 0 ==> c.cap == size
    ensures size <= 0 ==> c.cap == DefaultBufSize
  {
    Client("", "", [], if size <= 0 then DefaultBufSize else size, true)
  }

  /** Free space in the buffer, in bytes: `cap` and the buffer's size are
      both counted in UTF-8 bytes. */
  function Available(c: Client): (n: nat)
    ensures n <= c.cap
    ensures Utf8.Size(c.buf) <= c.cap ==> n + Utf8.Size(c.buf) == c.cap
    ensures Utf8.Size(c.buf) >= c.cap ==> n == 0
    ensures |Utf8.Encode(c.buf)| <= c.cap ==> n == c.cap - |Utf8.Encode(c.buf)|
  {
    var used := Utf8.Size(c.buf);
    if used <= c.cap then c.cap - used else 0
  }

  /** The byte size of the format template `prefix+name:%d|type[|@rate]`
      that the overflow test measures, summed piece by piece: `:`, the
      verb and `|` take four bytes, a sampled marker two more than its
      rate text. */
  function TemplateSize(c: Client, name: string, k: Kind, g: Gate, rate: Rate): nat {
    Utf8.Size(c.prefix) + Utf8.Size(name) + 4 + |Suffix(k)|
    + (if g == Sampled then 2 + Utf8.Size(rate.text) else 0)
  }

  /** The piecewise sum is the size of the template string itself. */
  lemma TemplateSizeOfFormat(c: Client, name: string, k: Kind, g: Gate, rate: Rate)
    ensures TemplateSize(c, name, k, g, rate) == Utf8.Size(Format(c.prefix + name, k, Marker(g, rate)))
  {
    FormatSize(c.prefix + name, k, Marker(g, rate));
    Utf8.SizeConcat(c.prefix, name);
    if g == Sampled {
      Utf8.SizeConcat("|@", rate.text);
      Utf8.AsciiSize("|@");
    } else {
      assert Utf8.Size("") == 0;
    }
  }

  /** The overflow test: the free space is smaller than the template. */
  predicate Overflows(c: Client, name: string, k: Kind, g: Gate, rate: Rate) {
    Available(c) < TemplateSize(c, name, k, g, rate)
  }

  /** When a send loses its line: the client is open, the gate lets the
      call through, the template overflows, and the transport rejects the
      non-empty buffer. */
  predicate ForcedFlushFails(c: Client, name: string, rate: Rate, k: Kind, draw: real, io: IoResult) {
    && c.open && Decide(rate.value, draw) != Dropped
    && Overflows(c, name, k, Decide(rate.value, draw), rate)
    && c.buf != [] && io.IoErr?
  }

  /** Replaces the prefix; nothing else changes. */
  function SetPrefix(c: Client, s: string): (r: Client)
    ensures r.prefix == s
    ensures r.buf == c.buf && r.sink == c.sink && r.cap == c.cap && r.open == c.open
  {
    c.(prefix := s)
  }

  /** Writes the buffered bytes to the transport as one packet. An empty
      buffer is not written at all. A failed write leaves the buffer
      holding everything not yet delivered. */
  function Flush(c: Client, io: IoResult): (r: Step)
    ensures r.client.prefix == c.prefix && r.client.cap == c.cap && r.client.open == c.open
    ensures r.reply == Panic <==> !c.open
    ensures r.reply == Nil ==> r.client.buf == [] && r.client.sink == c.sink + (if c.buf == [] then [] else [c.buf])
    ensures r.reply != Nil ==> r.client == c
    ensures r.reply.Err? <==> c.open && c.buf != [] && io.IoErr?
    ensures r.reply.Err? ==> r.reply.msg == io.msg
  {
    if !c.open then Step(c, Panic)
    else if c.buf == [] then Step(c, Nil)
    else match io
      case IoOk => Step(c.(buf := "", sink := c.sink + [c.buf]), Nil)
      case IoErr(msg) => Step(c, Err(msg))
  }

  /** The buffer after appending a line: a newline goes in front of it only
      when the buffer is not empty. */
  function Append(buf: string, line: string): (r: string)
    ensures |r| == |buf| + |line| + (if buf == [] then 0 else 1)
    ensures buf == [] ==> r == line
    ensures buf != [] ==> r[..|buf|] == buf && r[|buf|] == '\n' && r[|buf| + 1..] == line
  {
    if buf == [] then line else buf + "\n" + line
  }

  /** What became of one send call. `forced` says the overflow check ran a
      flush before the line was appended. */
  datatype Fate = Appended(line: string, forced: bool) | SampledOut | FlushFailed | Panicked

  datatype Sent = Sent(client: Client, fate: Fate) {
    /** The error the call returns: none unless it panicked. */
    function Returned(): Reply {
      if fate.Panicked? then Panic else Nil
    }
  }

  /** What sending `value` as a `k` line does to `c`, outcome by outcome.
      Exactly one result meets it (SendsUnique). */
  predicate Sends(c: Client, name: string, rate: Rate, k: Kind, value: string, draw: real, io: IoResult, r: Sent) {
    // prefix, capacity and the open flag are never touched
    && r.client.prefix == c.prefix && r.client.cap == c.cap && r.client.open == c.open
    // the gate drops the call before anything else is looked at
    && (r.fate.SampledOut? <==> rate.value < 1.0 && rate.value <= draw)
    // a closed client panics on every call the gate lets through
    && (r.fate.Panicked? <==> !c.open && !r.fate.SampledOut?)
    // the line is lost when the forced flush fails
    && (r.fate.FlushFailed? <==> ForcedFlushFails(c, name, rate, k, draw, io))
    // in every other case the line is buffered
    && (r.fate.Appended? <==> c.open && Decide(rate.value, draw) != Dropped && !ForcedFlushFails(c, name, rate, k, draw, io))
    && (!r.fate.Appended? ==> r.client == c)
    && (r.fate.Appended? ==>
          r.fate.line == c.prefix + name + ":" + value + "|" + Suffix(k)
                         + (if rate.value < 1.0 then "|@" + rate.text else ""))
    && (r.fate.Appended? ==> (r.fate.forced <==> Overflows(c, name, k, Decide(rate.value, draw), rate)))
    // without an overflow the line joins the buffer
    && (r.fate.Appended? && !r.fate.forced ==>
          r.client.sink == c.sink && r.client.buf == Append(c.buf, r.fate.line))
    // after an overflow the old buffer went out first
    && (r.fate.Appended? && r.fate.forced ==>
          r.client.sink == c.sink + (if c.buf == [] then [] else [c.buf]) && r.client.buf == r.fate.line)
  }

  /** The private send: sampling gate, rendering, overflow flush and
      newline-joined append. `draw` is the random number the Go client draws
      for sub-unit rates; `io` is the transport's answer should a forced
      flush write to it. */
  function Send(c: Client, name: string, rate: Rate, k: Kind, value: string, draw: real, io: IoResult): (r: Sent)
    ensures Sends(c, name, rate, k, value, draw, io, r)
  {
    var stat := c.prefix + name;
    var gate := Decide(rate.value, draw);
    if gate == Dropped then Sent(c, SampledOut)
    else if !c.open then Sent(c, Panicked)
    else
      var marker := Marker(gate, rate);
      var line := Render(stat, k, value, marker);
      if Overflows(c, name, k, gate, rate) then
        var f := Flush(c, io);
        if f.reply != Nil then Sent(c, FlushFailed)
        else Sent(f.client.(buf := Append(f.client.buf, line)), Appended(line, true))
      else Sent(c.(buf := Append(c.buf, line)), Appended(line, false))
  }

  /** The outcome clauses leave no freedom: two results that both meet
      them are the same result. */
  lemma SendsUnique(c: Client, name: string, rate: Rate, k: Kind, value: string, draw: real, io: IoResult, r1: Sent, r2: Sent)
    requires Sends(c, name, rate, k, value, draw, io, r1)
    requires Sends(c, name, rate, k, value, draw, io, r2)
    ensures r1 == r2
  {
  }

  /** Flushes, then releases the buffer and closes the transport. A flush
      error is returned with the transport left open. */
  function Close(c: Client, io: IoResult, closing: IoResult): (r: Step)
    ensures r.client.prefix == c.prefix && r.client.cap == c.cap
    ensures r.reply == Panic <==> !c.open
    ensures r.reply == Panic ==> r.client == c
    ensures c.open && !r.client.open <==> c.open && (c.buf == [] || io.IoOk?)
    ensures r.client.open == c.open ==> r.client == c
    ensures c.open && c.buf != [] && io.IoErr? ==> r.reply == Err(io.msg)
    ensures c.open && !r.client.open ==>
      r.client.buf == [] && r.client.sink == c.sink + (if c.buf == [] then [] else [c.buf])
      && r.reply == (if closing.IoOk? then Nil else Err(closing.msg))
  {
    var f := Flush(c, io);
    if f.reply != Nil then f
    else Step(f.client.(buf := "", open := false), if closing.IoOk? then Nil else Err(closing.msg))
  }
}
