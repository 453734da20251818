# StatsD client write path, modelled in Dafny

This project models the write path of a Go StatsD client (`statsd.go`): how a
metric call becomes a line `prefix+name:value|type[|@rate]`, the sampling gate
that drops or marks sub-unit-rate calls, and the batching buffer that joins
lines with `\n`, flushes itself when the next line's template would not fit,
and delivers everything on `Flush` and `Close`.

The client is an immutable record `Client(prefix, buf, sink, cap, open)`:
`buf` holds the buffered text, `sink` lists the writes that reached the
transport (one packet each), `cap` is the buffer capacity and `open` turns
false once `Close` has released the buffer. `Send`, `Flush`, `Close` and
`SetPrefix` are pure step functions. Everything the environment decides is
a parameter:
- the random draw for a sub-unit rate;
- the transport's answer to a write (`IoResult`);
- the transport's answer to a close.

Strings are sequences of Unicode scalar values. Go's `len` and the buffer's
capacity and free space count UTF-8 bytes. The model counts the same way:
`Utf8.Size` is the length of the UTF-8 encoding.

Modules:
- `Utf8`: the UTF-8 encoding and the byte size of a string, which is
  additive over concatenation and equals the length for ASCII text.
- `Decimal`: Go's `%d` for a 64-bit `int`, 64-bit negation, and a parser
  proved to be its exact inverse.
- `Line`: the five wire types, the sampling gate, and the format template
  against which the overflow check measures free space. Also the rendered
  line, with a parser proved to recover bucket, value, type and rate.
- `Statsd`: the client state and its step functions.
- `Metrics`: `Increment`, `Incr`, `IncrBy`, `Decrement`, `Decr`, `DecrBy`,
  `Duration` with its millisecond truncation, `Histogram`, `Gauge`,
  `Annotate` and `Unique`.
- `Conservation`: the central invariant, stated per packet. The transport
  writes followed by the buffer hold every accepted line, in order. Lines of
  one packet are joined by `\n`. Nothing sits between packets, and no packet
  is empty. The invariant is proved for each step and for any sequence of
  calls from a fresh client. Framing holds under a condition. Suppose no
  metric name or prefix starts with `\n` and no rate text ends with one.
  Then no packet and no buffered text starts or ends with `\n`, for any
  sequence of calls from a fresh client.
- `Capacity`: how far the template-based overflow check lets the model's
  buffer exceed its capacity, with a concrete instance.
- `WireExamples`: the byte strings the repository's tests pin.

Behaviour of `statsd.go` that the model keeps:
- A forced flush that fails makes the call return nil. The line is then
  dropped (statsd.go:202-204).
- The overflow test compares the free space with the length of the format
  template. In that template the value is still a `%d` or `%s` verb, and the
  separating `\n` is not yet added (statsd.go:201, statsd.go:208-210).
- `Flush` delegates to the buffered writer (statsd.go:167-169). After a
  failed write, the writer still holds the bytes it could not deliver.
- No line carries tags: `send` writes only bucket, value, type and rate
  (statsd.go:181-214).

## Model

| member | source | states |
|---|---|---|
| Decimal.Negate | statsd.go:127-139 | Go's unary minus on a 64-bit int: the negation for every value except the most negative, which maps to itself |
| Decimal.Digits | statsd.go:212 | the digits of a natural number are non-empty, all decimal digits, and start with `0` only for zero |
| Decimal.Render | statsd.go:212 | `%d` output is non-empty, starts with `-` exactly for negatives, and is otherwise canonical digits with no leading zero |
| Decimal.DigitsRoundTrip | statsd.go:212 | reading back the digits of `n` gives `n` |
| Decimal.CanonicalRoundTrip | statsd.go:212 | every canonical digit string is the rendering of the number it denotes |
| Decimal.ParseRender | statsd.go:212 | parsing a rendered integer returns that integer |
| Decimal.RenderParse | statsd.go:212 | any string the parser accepts is exactly the rendering of its value |
| Decimal.RenderIsCanonical | statsd.go:212 | a string denotes `x` if and only if it is `x`'s rendering |
| Decimal.RenderInjective | statsd.go:212 | distinct integers render to distinct strings |
| Utf8.Size | statsd.go:201 | a string's UTF-8 size lies between one and four bytes per character |
| Utf8.Encode | statsd.go:201 | the UTF-8 encoding of a string has exactly as many bytes as its size says |
| Utf8.EncodeConcat | statsd.go:201 | the encoding of a concatenation is the concatenation of the encodings |
| Utf8.SizeConcat | statsd.go:201 | byte sizes add up over concatenation |
| Utf8.AsciiSize | statsd.go:201 | an ASCII string's byte size is its length |
| Line.KindOfSuffix | statsd.go:112-164 | each metric family has one wire type (`c`, `ms`, `g`, `s`, `a`) and the type string determines the family |
| Line.Decide | statsd.go:186-192 | rate at least 1: no draw matters and no marker; rate below 1: sampled iff draw < rate, dropped otherwise |
| Line.Marker | statsd.go:188 | the `\|@rate` marker is present exactly when the gate sampled the call |
| Line.Render | statsd.go:181-194 | the line is the bucket, `:`, the value, `\|`, the type and the marker; its length is the template's length with the two-character verb replaced by the value |
| Line.LayoutSize | statsd.go:194 | the byte size of `stat:mid\|type marker` is the sum of its pieces, with two bytes for `:` and `\|` |
| Line.FormatSize | statsd.go:194-201 | a template's byte size is the bucket's, four for `:`, the verb and `\|`, the suffix's and the marker's |
| Line.RenderSize | statsd.go:194-212 | in UTF-8 bytes, too, the line is the template less its two-byte verb plus the value |
| Line.ParseRender | statsd.go:181-194 | a StatsD reader recovers bucket, value, type and rate from a rendered line whose bucket has no `:` and value no `\|` |
| Statsd.New | statsd.go:94-101 | a new client is open with empty buffer and sink; capacity is the requested size, or 512 when the size is not positive |
| Statsd.Available | statsd.go:201 | free space never exceeds capacity; it is capacity minus the buffer's UTF-8 size, the length of its UTF-8 encoding, while the buffer is within capacity, and zero once it is not |
| Statsd.TemplateSizeOfFormat | statsd.go:194-201 | the piecewise size the overflow test compares with free space equals the byte length of Go's `format` string |
| Statsd.SetPrefix | statsd.go:104-109 | the prefix is replaced verbatim and nothing else changes |
| Statsd.Flush | statsd.go:166-169 | an empty buffer writes nothing; otherwise the buffer goes out verbatim as one packet and is emptied, or on a transport error everything stays and the error is returned; after Close it panics |
| Statsd.Append | statsd.go:207-212 | a newline precedes the new line exactly when the buffer is not empty |
| Statsd.Send | statsd.go:181-214 | dropped by the draw iff rate < 1 and draw >= rate, with no state change; otherwise the line is prefix+name:value\|type plus the marker; a flush is forced iff free space is below the template's byte size; the call fails its forced flush, dropping the line and changing nothing, iff the client is open, the gate passes, the template overflows, the buffer is non-empty and the transport errs; after Close it panics without change; the call never reports a transport error |
| Statsd.SendsUnique | statsd.go:181-214 | the outcome clauses of a send leave no freedom: two results meeting them are equal |
| Statsd.Close | statsd.go:171-178 | a closed client panics and nothing changes; a flush error is returned and the client stays open; otherwise the pending bytes are delivered, the buffer is released and the transport's close result is returned |
| Metrics.Millis | statsd.go:27-29 | whole milliseconds truncated toward zero: the result times 10^6 is within one millisecond of the duration, on the same side of zero |
| Metrics.MillisSymmetric | statsd.go:27-29 | truncation is symmetric about zero |
| Metrics.Increment | statsd.go:111-114 | a counter line `prefix+name:count\|c`, with the rate marker when sampled; dropped exactly when the rate is below 1 and the draw is not below it; does to the client exactly what send does with that type: buffered unless the gate drops it, the client is closed or the forced flush fails, and otherwise unchanged |
| Metrics.Incr | statsd.go:116-119 | `prefix+name:1\|c`, never sampled out; does to the client exactly what send does with that type: buffered unless the gate drops it, the client is closed or the forced flush fails, and otherwise unchanged |
| Metrics.IncrBy | statsd.go:121-124 | `prefix+name:n\|c`, never sampled out; does to the client exactly what send does with that type: buffered unless the gate drops it, the client is closed or the forced flush fails, and otherwise unchanged |
| Metrics.Decrement | statsd.go:126-129 | identical to Increment of the wrapped negation; for all but the most negative count the line carries `-count` |
| Metrics.Decr | statsd.go:131-134 | identical to Decrement by 1; the line is `prefix+name:-1\|c`; does to the client exactly what send does with that type: buffered unless the gate drops it, the client is closed or the forced flush fails, and otherwise unchanged |
| Metrics.DecrBy | statsd.go:136-139 | identical to Decrement at rate 1 and to IncrBy of the negated value |
| Metrics.Duration | statsd.go:141-144 | `prefix+name:<whole ms>\|ms`, never sampled out; does to the client exactly what send does with that type: buffered unless the gate drops it, the client is closed or the forced flush fails, and otherwise unchanged |
| Metrics.Histogram | statsd.go:146-149 | `prefix+name:value\|ms`, the wire type of Duration for a raw integer, never sampled out; does to the client exactly what send does with that type: buffered unless the gate drops it, the client is closed or the forced flush fails, and otherwise unchanged |
| Metrics.Gauge | statsd.go:151-154 | `prefix+name:value\|g`, never sampled out; does to the client exactly what send does with that type: buffered unless the gate drops it, the client is closed or the forced flush fails, and otherwise unchanged |
| Metrics.Annotate | statsd.go:156-159 | `prefix+name:text\|a` with the expanded text verbatim, never sampled out; does to the client exactly what send does with that type: buffered unless the gate drops it, the client is closed or the forced flush fails, and otherwise unchanged |
| Metrics.Unique | statsd.go:161-164 | `prefix+name:value\|s`, with the rate marker when sampled; dropped exactly when the rate is below 1 and the draw is not below it; does to the client exactly what send does with that type: buffered unless the gate drops it, the client is closed or the forced flush fails, and otherwise unchanged |
| Metrics.NegatedCounterReadsBack | statsd.go:126-129 | a reader of a counter line carrying `-count` gets the bucket, type `c`, that value and the sampled rate, and the value parses back to `-count` |
| Metrics.DecrementReadsBack | statsd.go:126-129 | for every count but the most negative, the line a decrement appends is the counter line carrying `-count` with the gate's marker |
| Conservation.AppendJoins | statsd.go:207-212 | appending a line to a buffer holding some lines yields those lines plus it, newline-joined |
| Conservation.AppendStep | statsd.go:207-212 | an append keeps the conservation invariant with the line added to the pending lines |
| Conservation.PacketStep | statsd.go:166-169 | writing a non-empty buffer turns its pending lines into one new packet and keeps the invariant |
| Conservation.SendConserves | statsd.go:200-212 | after any send the invariant holds with exactly the accepted line, if any, appended to the accepted lines |
| Conservation.FlushConserves | statsd.go:166-169 | a flush keeps the invariant and the accepted lines; a successful flush leaves no pending line |
| Conservation.CloseConserves | statsd.go:171-178 | a successful close leaves every accepted line delivered in some packet |
| Conservation.ApplyConserves | statsd.go:104-212 | any single call (send, flush, prefix change) keeps the invariant |
| Conservation.RunConserves | statsd.go:104-212 | any sequence of calls keeps the invariant, with the accepted lines extended by those the calls accepted |
| Conservation.FreshRunConserves | statsd.go:94-212 | from a fresh client, transport writes followed by the buffer hold exactly the accepted lines, newline-joined within each packet |
| Conservation.JoinFramed | statsd.go:207-212 | joining framed lines gives a framed packet |
| Conservation.RenderFramed | statsd.go:181-194 | a line is framed unless its bucket starts, or its rate text ends, with a newline |
| Conservation.PacketsFramed | statsd.go:207-212 | when the accepted lines are framed, no packet is empty or starts or ends with `\n` |
| Conservation.ApplyFramed | statsd.go:104-212 | a call whose name, prefix and rate text are clean accepts only framed lines and keeps the prefix clean |
| Conservation.RunFramedLines | statsd.go:104-212 | a sequence of clean calls accepts only framed lines |
| Conservation.FlattenFramed | statsd.go:207-212 | when the accepted lines are framed, so is every line of every packet |
| Conservation.FreshRunFramed | statsd.go:94-212 | from a fresh client, clean calls never leave a packet or the buffered text starting or ending with `\n`, whatever the transport answers |
| Conservation.TwoSendsJoin | statsd.go:207-212 | two unforced sends into an empty buffer leave `line1\nline2` |
| Capacity.AppendSize | statsd.go:207-212 | an append adds the line's bytes, plus one for the separator when the buffer was not empty |
| Capacity.SendOvershoot | statsd.go:200-212 | after an unforced append the model's buffer exceeds capacity by less than the value's byte size; after a forced flush it holds only the new line |
| Capacity.UnforcedRoom | statsd.go:200-212 | a send appended without a flush found at least five bytes free, the size of the shortest template |
| Capacity.ShortValueFits | statsd.go:200-212 | a value of at most two bytes, the width of the `%d` verb, keeps an unforced append within capacity plus the separator |
| Capacity.UnforcedSend | statsd.go:200-212 | an unsampled send whose template fits the free space appends its rendered line with no flush |
| Capacity.TemplateCheckOverfills | statsd.go:200-212 | concrete case: the template check lets a 19-byte append into 15 free bytes, taking the model's buffer to 24 of 20 |
| Capacity.WideNameForcesFlush | statsd.go:201 | space is counted in bytes: an 11-character template of 17 bytes does not fit 15 free bytes, so the buffer is flushed first |
| WireExamples.PrefixIsLiteral | statsd_test.go:19-29 | with prefix `foo.bar.baz.` an increment delivers `foo.bar.baz.incr:1\|c` |
| WireExamples.IncrLine | statsd_test.go:31-40 | Incr delivers `incr:1\|c` |
| WireExamples.DecrLine | statsd_test.go:42-51 | Decr delivers `decr:-1\|c` |
| WireExamples.DurationLine | statsd_test.go:53-62 | 123456789ns delivers `timing:123\|ms` |
| WireExamples.GaugeLine | statsd_test.go:64-73 | Gauge 300 delivers `gauge:300\|g` |
| WireExamples.AnnotateLine | statsd_test.go:75-84 | an annotation delivers `deploys:deploying api 1.2.3\|a` |
| WireExamples.MillisTable | millisecond_test.go:8-24 | 350ms gives 350, 5s gives 5000, 50ns gives 0 |
| WireExamples.UniqueTwice | statsd.go:207-212 | two sends of `unique:765\|s` flush as one newline-joined packet |
| WireExamples.SamplingMarker | statsd.go:186-192 | at rate 0.5 a draw of 0.25 appends `hits:1\|c\|@0.5`; a draw of 0.75 leaves the client unchanged |

## Left out

- Dialing and connection setup (`Dial*`, the `net.Conn`): network I/O. Only the default capacity and the non-positive-size fallback are modelled.
- The mutex: the model is single-threaded, so every call is atomic by construction.
- The debug logging hook: a foreign side effect with no effect on the bytes.
- `math/rand`: the draw is a parameter.
- The `%g` rendering of the rate: the rate's text is an opaque string next to its value, which is a `real`. Float NaN and rounding are not modelled.
- Metrics.Millis: computes on integer nanoseconds, truncating toward zero. The Go client computes `int(d.Seconds()*1000)` in float64. In IEEE double arithmetic that product falls just below many whole-millisecond values: 1001ms gives 1000 and 1005ms gives 1004, where the model gives 1001 and 1005. Floating point is not modelled.
- The `fmt.Sprintf` expansion inside `Annotate`: the model takes the already-expanded text.
- Names or prefixes containing `%`: the Go client splices the name into the format string, so such a name would be reinterpreted as format verbs. The model renders names literally.
- `bufio.Writer` internals. Each is abstracted away:
  - the sticky error after a failed write;
  - partial writes;
  - the internal spill when a rendered line is larger than the free space.
  An append always puts the whole line into the buffer, which may then exceed its capacity (see `Capacity`). A failed flush writes nothing and keeps the buffer.
- Capacity.SendOvershoot: the overshoot is the model's stand-in for the buffered writer's spill. When an append does not fit, Go copies what fits into the buffer, writes the full buffer to the transport, and keeps the rest. Go's buffer never holds more than its capacity.
- Capacity.ShortValueFits: bounds the model's buffer only. Where the model's buffer holds the excess byte, Go writes the full buffer, ending in the head of the new line, to the transport and keeps only the excess buffered.
- Capacity.UnforcedSend: in Go, the appended text need not all stay in one packet. The part that fits goes out with the old buffer as one packet, torn at the capacity boundary, and the part that does not fit stays buffered.
- Capacity.TemplateCheckOverfills: in Go, 15 of the 19 bytes `\nbbbbbbbb:1000000|c` are copied. Then `a:1|c\nbbbbbbbb:10000` is written as one packet, and `00|c` stays buffered, so one line is torn across two packets. The model instead holds all 24 bytes.
- Conservation.FreshRunConserves: whole lines per packet hold for Go only while no append spills past the capacity. After a spill, a line can be split across two packets. A line larger than the whole buffer, appended to an empty buffer, goes straight to the transport in Go as its own write. The model buffers it and delivers it at the next flush.
- Conservation.FreshRunFramed: holds for Go only while no append spills. An unforced append always finds at least five bytes free (Capacity.UnforcedRoom), so the separator and at least four bytes of the line go into the packet together. But a spill can tear a line right after a newline inside its name, value or rate text, leaving a packet that ends with `\n`.
- Statsd.Send: never returns a transport error, because the append cannot fail under this abstraction. In the Go client, a spill or a sticky error can surface from `Fprintf`.
- Statsd.Close: the transport's close result is a parameter. A client built by `NewClient` has no connection, and calling its `Close` would dereference a nil interface; this is not modelled.
- Client-level and per-call tags: not present in this code.
