/** How far the model's buffer can exceed its capacity. The overflow check
    compares the free space with the UTF-8 size of the format template
    (verb `%d` or `%s` in place of the value, separator not counted), not
    with the bytes actually appended. When the appended text does not fit,
    Go's buffered writer copies the part that fits, writes the full buffer
    (the old lines and the head of the new one) to the transport and keeps
    the tail; the model instead keeps the whole text in its buffer. The
    overshoot stated here is the model's stand-in for that spill. */
module Capacity {
  import opened Line
  import opened Statsd
  import Utf8

  /** Appending costs the line's bytes plus one for the separator. */
  lemma AppendSize(buf: string, line: string)
    ensures Utf8.Size(Append(buf, line)) == Utf8.Size(buf) + Utf8.Size(line) + (if buf == [] then 0 else 1)
  {
    if buf != [] {
      Utf8.SizeConcat(buf + "\n", line);
      Utf8.SizeConcat(buf, "\n");
      Utf8.AsciiSize("\n");
    }
  }

  /** Every template holds at least `:`, the two-byte verb and `|` plus a
      suffix. */
  lemma FormatAtLeastFour(stat: string, k: Kind, marker: string)
    ensures Utf8.Size(Format(stat, k, marker)) >= 4
  {
    assert |Format(stat, k, marker)| >= 4;
  }

  /** An append that needed no flush found at least five bytes free, the
      size of the shortest template (`:`, the two-byte verb, `|` and a
      one-byte suffix): the separator and at least four bytes of the line
      always fit before any spill. */
  lemma UnforcedRoom(c: Client, name: string, rate: Rate, k: Kind, value: string, draw: real, io: IoResult)
    ensures var r := Send(c, name, rate, k, value, draw, io);
      r.fate.Appended? && !r.fate.forced ==> Available(c) >= 5
  {
    assert |Suffix(k)| >= 1;
  }

  /** After an append that needed no flush, the buffer exceeds its capacity
      by at most the value's size minus one; after a forced flush it holds
      the new line alone. */
  lemma SendOvershoot(c: Client, name: string, rate: Rate, k: Kind, value: string, draw: real, io: IoResult)
    ensures var r := Send(c, name, rate, k, value, draw, io);
      r.fate.Appended? ==>
        (if r.fate.forced then r.client.buf == r.fate.line
         else Utf8.Size(r.client.buf) + 1 <= c.cap + Utf8.Size(value))
  {
    var r := Send(c, name, rate, k, value, draw, io);
    if r.fate.Appended? && !r.fate.forced {
      var marker := Marker(Decide(rate.value, draw), rate);
      TemplateSizeOfFormat(c, name, k, Decide(rate.value, draw), rate);
      FormatAtLeastFour(c.prefix + name, k, marker);
      RenderSize(c.prefix + name, k, value, marker);
      AppendSize(c.buf, r.fate.line);
    }
  }

  /** A value of at most two bytes (as wide as the verb it replaces) keeps
      an unforced append within capacity when the buffer was empty, and
      within one byte (the separator) otherwise. */
  lemma ShortValueFits(c: Client, name: string, rate: Rate, k: Kind, value: string, draw: real, io: IoResult)
    requires Utf8.Size(value) <= 2
    ensures var r := Send(c, name, rate, k, value, draw, io);
      r.fate.Appended? && !r.fate.forced ==>
        Utf8.Size(r.client.buf) <= c.cap + (if c.buf == [] then 0 else 1)
  {
    var r := Send(c, name, rate, k, value, draw, io);
    if r.fate.Appended? && !r.fate.forced {
      var marker := Marker(Decide(rate.value, draw), rate);
      TemplateSizeOfFormat(c, name, k, Decide(rate.value, draw), rate);
      FormatAtLeastFour(c.prefix + name, k, marker);
      RenderSize(c.prefix + name, k, value, marker);
      AppendSize(c.buf, r.fate.line);
    }
  }

  /** An unsampled send whose template fits the free space appends its
      line without a flush. */
  lemma UnforcedSend(c: Client, name: string, k: Kind, value: string, io: IoResult)
    requires c.open && Utf8.Size(Format(c.prefix + name, k, "")) <= Available(c)
    ensures var line := Render(c.prefix + name, k, value, "");
      Send(c, name, Always, k, value, 0.0, io) == Sent(c.(buf := Append(c.buf, line)), Appended(line, false))
  {
    TemplateSizeOfFormat(c, name, k, Unsampled, Always);
    assert Marker(Unsampled, Always) == "";
  }

  /** The check lets a line through that does not fit: with 15 bytes free,
      the 13-byte template `bbbbbbbb:%d|c` passes, but the appended
      newline and 18-byte line take the model's buffer to 24 bytes of 20,
      although the line alone would have fitted an emptied buffer. */
  lemma TemplateCheckOverfills()
    ensures var c := Client("", "a:1|c", [], 20, true);
      var r := Send(c, "bbbbbbbb", Always, Counter, "1000000", 0.0, IoOk);
      && r.fate == Appended("bbbbbbbb:1000000|c", false)
      && Utf8.Size(r.fate.line) <= c.cap
      && Utf8.Size(r.client.buf) == 24 > c.cap
  {
    var c := Client("", "a:1|c", [], 20, true);
    FifteenFree();
    TemplateThirteen();
    UnforcedSend(c, "bbbbbbbb", Counter, "1000000", IoOk);
    LongLine();
  }

  lemma FifteenFree()
    ensures Available(Client("", "a:1|c", [], 20, true)) == 15
  {
    Utf8.AsciiSize("a:1|c");
  }

  lemma TemplateThirteen()
    ensures Utf8.Size(Format("" + "bbbbbbbb", Counter, "")) == 13
  {
    assert Format("" + "bbbbbbbb", Counter, "") == "bbbbbbbb:%d|c";
    Utf8.AsciiSize("bbbbbbbb:%d|c");
  }

  lemma LongLine()
    ensures Render("" + "bbbbbbbb", Counter, "1000000", "") == "bbbbbbbb:1000000|c"
    ensures Utf8.Size("bbbbbbbb:1000000|c") == 18
    ensures Utf8.Size(Append("a:1|c", "bbbbbbbb:1000000|c")) == 24
  {
    LongLineRendered();
    LongLineSizes();
    AppendSize("a:1|c", "bbbbbbbb:1000000|c");
  }

  lemma LongLineRendered()
    ensures Render("" + "bbbbbbbb", Counter, "1000000", "") == "bbbbbbbb:1000000|c"
  {
  }

  lemma LongLineSizes()
    ensures Utf8.Size("a:1|c") == 5
    ensures Utf8.Size("bbbbbbbb:1000000|c") == 18
  {
    Utf8.AsciiSize("a:1|c");
    Utf8.AsciiSize("bbbbbbbb:1000000|c");
  }

  /** Space is counted in bytes, not characters: six two-byte characters
      make the 11-character template `éééééé:%d|c` 17 bytes, more than the
      15 free, so the buffered line is flushed first. */
  lemma WideNameForcesFlush()
    ensures var c := Client("", "a:1|c", [], 20, true);
      var r := Send(c, "éééééé", Always, Counter, "1", 0.0, IoOk);
      && |Format("éééééé", Counter, "")| <= Available(c)
      && r.fate == Appended("éééééé:1|c", true)
      && r.client.sink == ["a:1|c"] && r.client.buf == "éééééé:1|c"
  {
    var c := Client("", "a:1|c", [], 20, true);
    FifteenFree();
    WideSize();
    assert TemplateSize(c, "éééééé", Counter, Unsampled, Always) == 17;
    WideRendered();
  }

  lemma WideRendered()
    ensures Render("" + "éééééé", Counter, "1", Marker(Unsampled, Always)) == "éééééé:1|c"
  {
  }

  /** Each `é` takes two bytes. */
  lemma WideSize()
    ensures Utf8.Size("éééééé") == 12
  {
    assert Utf8.Size("é") == 2;
    assert "éé" == "é" + "é";
    Utf8.SizeConcat("é", "é");
    assert "ééé" == "é" + "éé";
    Utf8.SizeConcat("é", "éé");
    assert "éééééé" == "ééé" + "ééé";
    Utf8.SizeConcat("ééé", "ééé");
  }
}
