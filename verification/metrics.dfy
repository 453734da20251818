/** The public metric methods. Each renders its value and hands it to the
    client's send with a fixed wire type; the fixed-rate ones pass rate 1,
    so they never draw a random number and are never sampled out. */
module Metrics {
  import opened Wrappers
  import Decimal
  import opened Line
  import opened Statsd

  /** The `|` and the type suffix form one field of the line. Each metric
      states its line with the field as one literal (`|c`, `|ms`, ...);
      this lemma and TypeFields connect that to the line Send renders. */
  lemma TypeField(head: string, k: Kind, field: string, marker: string)
    requires "|" + Suffix(k) == field
    ensures head + "|" + Suffix(k) + marker == head + field + marker
  {
  }

  /** The `|type` field of each family, as one literal. */
  lemma TypeFields()
    ensures "|" + Suffix(Counter) == "|c" && "|" + Suffix(Timing) == "|ms"
    ensures "|" + Suffix(Kind.Gauge) == "|g" && "|" + Suffix(Annotation) == "|a"
    ensures "|" + Suffix(Set) == "|s"
  {
  }

  /** The unsampled counter line for a count of one either way, with its
      tail as one literal, as Incr and Decr state their lines. */
  lemma UnitCounter(stat: string, n: Decimal.Int64, tail: string)
    requires (n == 1 && tail == ":1|c") || (n == -1 && tail == ":-1|c")
    ensures stat + ":" + Decimal.Render(n) + "|c" + (if Always.value < 1.0 then "|@" + Always.text else "")
         == stat + tail
  {
    UnitRendered();
    assert ":" + Decimal.Render(n) + "|c" == tail;
  }

  /** `%d` of one and of minus one. */
  lemma UnitRendered()
    ensures Decimal.Render(1) == "1" && Decimal.Render(-1) == "-1"
  {
    assert Decimal.DigitChar(1) == '1';
  }

  const NanosPerMilli: int := 1_000_000

  /** Whole milliseconds in a duration of `ns` nanoseconds, truncated
      toward zero as Go's float-to-int conversion does. */
  function Millis(ns: Decimal.Int64): (ms: int)
    ensures ns >= 0 ==> 0 <= ms && ms * NanosPerMilli <= ns < (ms + 1) * NanosPerMilli
    ensures ns < 0 ==> ms <= 0 && ns <= ms * NanosPerMilli && (ms - 1) * NanosPerMilli < ns
  {
    var n: int := ns;
    if n >= 0 then n / NanosPerMilli else -((-n) / NanosPerMilli)
  }

  /** Millis is odd: a negative duration truncates to the negation of its
      magnitude's result. */
  lemma MillisSymmetric(ns: Decimal.Int64)
    requires ns != Decimal.MinInt64
    ensures Millis(-ns) == -Millis(ns)
  {
  }

  function Increment(c: Client, name: string, count: Decimal.Int64, rate: Rate, draw: real, io: IoResult): (r: Sent)
    ensures Sends(c, name, rate, Counter, Decimal.Render(count), draw, io, r)
    ensures r.fate.Appended? ==>
      r.fate.line == c.prefix + name + ":" + Decimal.Render(count) + "|c"
                     + (if rate.value < 1.0 then "|@" + rate.text else "")
  {
    var r := Send(c, name, rate, Counter, Decimal.Render(count), draw, io);
    TypeFields();
    TypeField(c.prefix + name + ":" + Decimal.Render(count), Counter, "|c", if rate.value < 1.0 then "|@" + rate.text else "");
    r
  }

  function Incr(c: Client, name: string, io: IoResult): (r: Sent)
    ensures Sends(c, name, Always, Counter, "1", 0.0, io, r)
    ensures !r.fate.SampledOut?
    ensures r.fate.Appended? ==> r.fate.line == c.prefix + name + ":1|c"
  {
    UnitRendered();
    var r := Increment(c, name, 1, Always, 0.0, io);
    UnitCounter(c.prefix + name, 1, ":1|c");
    r
  }

  function IncrBy(c: Client, name: string, n: Decimal.Int64, io: IoResult): (r: Sent)
    ensures Sends(c, name, Always, Counter, Decimal.Render(n), 0.0, io, r)
    ensures !r.fate.SampledOut?
    ensures r.fate.Appended? ==> r.fate.line == c.prefix + name + ":" + Decimal.Render(n) + "|c"
  {
    Increment(c, name, n, Always, 0.0, io)
  }

  /** Increment of the negated count; the negation wraps like Go's. */
  function Decrement(c: Client, name: string, count: Decimal.Int64, rate: Rate, draw: real, io: IoResult): (r: Sent)
    ensures r == Increment(c, name, Decimal.Negate(count), rate, draw, io)
    ensures count != Decimal.MinInt64 && r.fate.Appended? ==>
      r.fate.line == c.prefix + name + ":" + Decimal.Render(-count) + "|c"
                     + (if rate.value < 1.0 then "|@" + rate.text else "")
  {
    Increment(c, name, Decimal.Negate(count), rate, draw, io)
  }

  function Decr(c: Client, name: string, io: IoResult): (r: Sent)
    ensures Sends(c, name, Always, Counter, "-1", 0.0, io, r)
    ensures r == Decrement(c, name, 1, Always, 0.0, io)
    ensures r.fate.Appended? ==> r.fate.line == c.prefix + name + ":-1|c"
  {
    UnitRendered();
    var r := Increment(c, name, -1, Always, 0.0, io);
    UnitCounter(c.prefix + name, -1, ":-1|c");
    r
  }

  function DecrBy(c: Client, name: string, value: Decimal.Int64, io: IoResult): (r: Sent)
    ensures r == Decrement(c, name, value, Always, 0.0, io)
    ensures r == IncrBy(c, name, Decimal.Negate(value), io)
    ensures value != Decimal.MinInt64 && r.fate.Appended? ==>
      r.fate.line == c.prefix + name + ":" + Decimal.Render(-value) + "|c"
  {
    Increment(c, name, Decimal.Negate(value), Always, 0.0, io)
  }

  function Duration(c: Client, name: string, ns: Decimal.Int64, io: IoResult): (r: Sent)
    ensures Sends(c, name, Always, Timing, Decimal.Render(Millis(ns)), 0.0, io, r)
    ensures !r.fate.SampledOut?
    ensures r.fate.Appended? ==> r.fate.line == c.prefix + name + ":" + Decimal.Render(Millis(ns)) + "|ms"
  {
    var r := Send(c, name, Always, Timing, Decimal.Render(Millis(ns)), 0.0, io);
    TypeFields();
    TypeField(c.prefix + name + ":" + Decimal.Render(Millis(ns)), Timing, "|ms", if Always.value < 1.0 then "|@" + Always.text else "");
    r
  }

  /** Same wire type as Duration, for a raw integer. */
  function Histogram(c: Client, name: string, value: Decimal.Int64, io: IoResult): (r: Sent)
    ensures Sends(c, name, Always, Timing, Decimal.Render(value), 0.0, io, r)
    ensures !r.fate.SampledOut?
    ensures r.fate.Appended? ==> r.fate.line == c.prefix + name + ":" + Decimal.Render(value) + "|ms"
  {
    var r := Send(c, name, Always, Timing, Decimal.Render(value), 0.0, io);
    TypeFields();
    TypeField(c.prefix + name + ":" + Decimal.Render(value), Timing, "|ms", if Always.value < 1.0 then "|@" + Always.text else "");
    r
  }

  function Gauge(c: Client, name: string, value: Decimal.Int64, io: IoResult): (r: Sent)
    ensures Sends(c, name, Always, Kind.Gauge, Decimal.Render(value), 0.0, io, r)
    ensures !r.fate.SampledOut?
    ensures r.fate.Appended? ==> r.fate.line == c.prefix + name + ":" + Decimal.Render(value) + "|g"
  {
    var r := Send(c, name, Always, Kind.Gauge, Decimal.Render(value), 0.0, io);
    TypeFields();
    TypeField(c.prefix + name + ":" + Decimal.Render(value), Kind.Gauge, "|g", if Always.value < 1.0 then "|@" + Always.text else "");
    r
  }

  /** `text` is the annotation after the caller's format arguments were
      expanded; it is emitted verbatim. */
  function Annotate(c: Client, name: string, text: string, io: IoResult): (r: Sent)
    ensures Sends(c, name, Always, Annotation, text, 0.0, io, r)
    ensures !r.fate.SampledOut?
    ensures r.fate.Appended? ==> r.fate.line == c.prefix + name + ":" + text + "|a"
  {
    var r := Send(c, name, Always, Annotation, text, 0.0, io);
    TypeFields();
    TypeField(c.prefix + name + ":" + text, Annotation, "|a", if Always.value < 1.0 then "|@" + Always.text else "");
    r
  }

  function Unique(c: Client, name: string, value: Decimal.Int64, rate: Rate, draw: real, io: IoResult): (r: Sent)
    ensures Sends(c, name, rate, Set, Decimal.Render(value), draw, io, r)
    ensures r.fate.Appended? ==>
      r.fate.line == c.prefix + name + ":" + Decimal.Render(value) + "|s"
                     + (if rate.value < 1.0 then "|@" + rate.text else "")
  {
    var r := Send(c, name, rate, Set, Decimal.Render(value), draw, io);
    TypeFields();
    TypeField(c.prefix + name + ":" + Decimal.Render(value), Set, "|s", if rate.value < 1.0 then "|@" + rate.text else "");
    r
  }

  /** A server reading a counter line whose value is `-count` gets the
      bucket, type `c`, the negated count and the rate when one was sampled. */
  lemma NegatedCounterReadsBack(stat: string, count: int, g: Gate, rate: Rate)
    requires Excludes(stat, ':')
    ensures Line.Parse(Render(stat, Counter, Decimal.Render(-count), Marker(g, rate)))
         == Some(Fields(stat, Decimal.Render(-count), Counter, if g == Sampled then Some(rate.text) else None))
    ensures Decimal.Parse(Decimal.Render(-count)) == Some(-count)
  {
    RenderedHasNoBar(-count);
    Line.ParseRender(stat, Counter, Decimal.Render(-count), g, rate);
    Decimal.ParseRender(-count);
  }

  /** A rendered integer is a sign and digits, so it holds no `|`. */
  lemma RenderedHasNoBar(x: int)
    ensures Excludes(Decimal.Render(x), '|')
  {
    var s := Decimal.Render(x);
    forall j | 0 <= j < |s| ensures s[j] != '|' {
      if j > 0 {
        assert Decimal.IsDigit(s[j]);
      }
    }
  }

  /** The line a decrement appends is that counter line: a reader gets the
      negated count back. */
  lemma DecrementReadsBack(c: Client, name: string, count: Decimal.Int64, rate: Rate, draw: real, io: IoResult)
    requires count != Decimal.MinInt64
    ensures var r := Decrement(c, name, count, rate, draw, io);
      r.fate.Appended? ==>
        r.fate.line == Render(c.prefix + name, Counter, Decimal.Render(-count), Marker(Decide(rate.value, draw), rate))
  {
  }
}
