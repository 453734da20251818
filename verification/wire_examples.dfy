/** The exact bytes the repository's tests pin, derived from the model. */
module WireExamples {
  import opened Line
  import opened Statsd
  import opened Metrics
  import Decimal
  import Utf8

  /** A fresh writer-backed client with the default 512-byte buffer. */
  function Fresh(): Client {
    New(0)
  }

  /** What reaches the transport after one call and a successful flush. */
  function Delivered(r: Sent): seq<string> {
    Flush(r.client, IoOk).client.sink
  }

  /** An unsampled send whose template fits the free space is appended to
      the buffer without a flush. */
  lemma SendFits(c: Client, name: string, k: Kind, value: string, io: IoResult)
    requires c.open && Utf8.IsAscii(c.buf) && Utf8.IsAscii(c.prefix) && Utf8.IsAscii(name)
    requires |c.buf| + |c.prefix| + |name| + 4 + |Suffix(k)| <= c.cap
    ensures Send(c, name, Always, k, value, 0.0, io).client
         == c.(buf := Append(c.buf, Render(c.prefix + name, k, value, "")))
  {
    Utf8.AsciiSize(c.buf);
    Utf8.AsciiSize(c.prefix);
    Utf8.AsciiSize(name);
    assert Marker(Unsampled, Always) == "";
  }

  lemma FlushOne(c: Client, line: string)
    requires c.open && c.sink == [] && c.buf == line && line != []
    ensures Flush(c, IoOk).client.sink == [line]
  {
  }

  /** One unsampled send on a fresh client with an ASCII prefix and name
      that fit the buffer delivers its rendered line, alone, on the next
      flush. */
  lemma Delivers(prefix: string, name: string, k: Kind, value: string, line: string)
    requires Utf8.IsAscii(prefix) && Utf8.IsAscii(name)
    requires |prefix| + |name| + 4 + |Suffix(k)| <= DefaultBufSize
    requires Render(prefix + name, k, value, "") == line
    ensures Delivered(Send(SetPrefix(Fresh(), prefix), name, Always, k, value, 0.0, IoOk)) == [line]
  {
    var c := SetPrefix(Fresh(), prefix);
    assert Utf8.IsAscii(c.buf);
    SendFits(c, name, k, value, IoOk);
    assert line[|prefix + name|] == ':';
    FlushOne(c.(buf := line), line);
  }

  lemma PrefixIsLiteral()
    ensures Delivered(Increment(SetPrefix(Fresh(), "foo.bar.baz."), "incr", 1, Always, 0.0, IoOk))
         == ["foo.bar.baz.incr:1|c"]
  {
    OneDigit();
    PrefixedRendered();
    assert Utf8.IsAscii("foo.bar.baz.") && Utf8.IsAscii("incr");
    Delivers("foo.bar.baz.", "incr", Counter, "1", "foo.bar.baz.incr:1|c");
  }

  lemma PrefixedRendered()
    ensures Render("foo.bar.baz." + "incr", Counter, "1", "") == "foo.bar.baz.incr:1|c"
  {
  }

  lemma IncrLine()
    ensures Delivered(Incr(Fresh(), "incr", IoOk)) == ["incr:1|c"]
  {
    OneDigit();
    assert Render("" + "incr", Counter, "1", "") == "incr:1|c";
    assert Utf8.IsAscii("") && Utf8.IsAscii("incr");
    Delivers("", "incr", Counter, "1", "incr:1|c");
    assert SetPrefix(Fresh(), "") == Fresh();
  }

  lemma DecrLine()
    ensures Delivered(Decr(Fresh(), "decr", IoOk)) == ["decr:-1|c"]
  {
    OneDigit();
    assert Decimal.Render(-1) == "-1";
    assert Render("" + "decr", Counter, "-1", "") == "decr:-1|c";
    assert Utf8.IsAscii("") && Utf8.IsAscii("decr");
    Delivers("", "decr", Counter, "-1", "decr:-1|c");
    assert SetPrefix(Fresh(), "") == Fresh();
  }

  lemma DurationLine()
    ensures Delivered(Duration(Fresh(), "timing", 123456789, IoOk)) == ["timing:123|ms"]
  {
    assert Millis(123456789) == 123;
    ThreeDigits(1, 2, 3);
    assert Decimal.Render(123) == "123";
    TimingRendered();
    assert Utf8.IsAscii("") && Utf8.IsAscii("timing");
    Delivers("", "timing", Timing, "123", "timing:123|ms");
    assert SetPrefix(Fresh(), "") == Fresh();
  }

  lemma TimingRendered()
    ensures Render("" + "timing", Timing, "123", "") == "timing:123|ms"
  {
  }

  lemma GaugeLine()
    ensures Delivered(Metrics.Gauge(Fresh(), "gauge", 300, IoOk)) == ["gauge:300|g"]
  {
    ThreeDigits(3, 0, 0);
    assert Decimal.Render(300) == "300";
    GaugeRendered();
    assert Utf8.IsAscii("") && Utf8.IsAscii("gauge");
    Delivers("", "gauge", Kind.Gauge, "300", "gauge:300|g");
    assert SetPrefix(Fresh(), "") == Fresh();
  }

  lemma GaugeRendered()
    ensures Render("" + "gauge", Kind.Gauge, "300", "") == "gauge:300|g"
  {
  }

  lemma AnnotateLine()
    ensures Delivered(Annotate(Fresh(), "deploys", "deploying api 1.2.3", IoOk)) == ["deploys:deploying api 1.2.3|a"]
  {
    AnnotateRendered();
    assert Utf8.IsAscii("") && Utf8.IsAscii("deploys");
    Delivers("", "deploys", Annotation, "deploying api 1.2.3", "deploys:deploying api 1.2.3|a");
    assert SetPrefix(Fresh(), "") == Fresh();
  }

  lemma AnnotateRendered()
    ensures Render("" + "deploys", Annotation, "deploying api 1.2.3", "") == "deploys:deploying api 1.2.3|a"
  {
  }

  lemma MillisTable()
    ensures Millis(350 * NanosPerMilli) == 350
    ensures Millis(5_000_000_000) == 5000
    ensures Millis(50) == 0
  {
  }

  /** Two unflushed sends travel in one packet, newline-joined. */
  lemma UniqueTwice()
    ensures var r1 := Unique(Fresh(), "unique", 765, Always, 0.0, IoOk);
      var r2 := Unique(r1.client, "unique", 765, Always, 0.0, IoOk);
      Delivered(r2) == ["unique:765|s\nunique:765|s"]
  {
    UniqueFirst();
    UniqueSecond();
    FlushOne(Fresh().(buf := "unique:765|s\nunique:765|s"), "unique:765|s\nunique:765|s");
  }

  lemma UniqueRendered()
    ensures Decimal.Render(765) == "765"
    ensures Render("" + "unique", Set, "765", "") == "unique:765|s"
  {
    ThreeDigits(7, 6, 5);
  }

  lemma JoinedUnique()
    ensures Append("unique:765|s", "unique:765|s") == "unique:765|s\nunique:765|s"
  {
  }

  lemma UniqueFirst()
    ensures Unique(Fresh(), "unique", 765, Always, 0.0, IoOk).client == Fresh().(buf := "unique:765|s")
  {
    UniqueRendered();
    assert Utf8.IsAscii("") && Utf8.IsAscii("unique");
    SendFits(Fresh(), "unique", Set, "765", IoOk);
  }

  lemma UniqueSecond()
    ensures Unique(Fresh().(buf := "unique:765|s"), "unique", 765, Always, 0.0, IoOk).client
         == Fresh().(buf := "unique:765|s\nunique:765|s")
  {
    var c1 := Fresh().(buf := "unique:765|s");
    UniqueRendered();
    SecondFits();
    assert Unique(c1, "unique", 765, Always, 0.0, IoOk) == Send(c1, "unique", Always, Set, "765", 0.0, IoOk);
    JoinedUnique();
  }

  lemma SecondFits()
    ensures var c1 := Fresh().(buf := "unique:765|s");
      Send(c1, "unique", Always, Set, "765", 0.0, IoOk).client
        == c1.(buf := Append(c1.buf, Render("" + "unique", Set, "765", "")))
  {
    var c1 := Fresh().(buf := "unique:765|s");
    assert Utf8.IsAscii(c1.buf);
    assert Utf8.IsAscii("unique");
    SendFits(c1, "unique", Set, "765", IoOk);
  }

  /** A sampled call carries its rate; a call the draw rejects leaves the
      client as it was. */
  lemma SamplingMarker()
    ensures Increment(Fresh(), "hits", 1, Rate(0.5, "0.5"), 0.25, IoOk).fate
         == Appended("hits:1|c|@0.5", false)
    ensures Increment(Fresh(), "hits", 1, Rate(0.5, "0.5"), 0.75, IoOk)
         == Sent(Fresh(), SampledOut)
  {
    OneDigit();
    assert Render("" + "hits", Counter, "1", Marker(Sampled, Rate(0.5, "0.5"))) == "hits:1|c|@0.5";
  }

  lemma OneDigit()
    ensures Decimal.Render(1) == "1"
  {
    assert Decimal.DigitChar(1) == '1';
  }

  lemma ThreeDigits(a: nat, b: nat, d: nat)
    requires 1 <= a < 10 && b < 10 && d < 10
    ensures Decimal.Render(a * 100 + b * 10 + d)
         == [Decimal.DigitChar(a), Decimal.DigitChar(b), Decimal.DigitChar(d)]
  {
    var n := a * 100 + b * 10 + d;
    assert n / 10 == a * 10 + b && n % 10 == d;
    assert (a * 10 + b) / 10 == a && (a * 10 + b) % 10 == b;
    assert Decimal.Digits(a) == [Decimal.DigitChar(a)];
    assert Decimal.Digits(a * 10 + b) == Decimal.Digits(a) + [Decimal.DigitChar(b)];
    assert Decimal.Digits(n) == Decimal.Digits(a * 10 + b) + [Decimal.DigitChar(d)];
  }
}
