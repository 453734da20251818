/** One StatsD line: `bucket:value|type[|@rate]`, the sampling gate that
    decides whether it is emitted, and the format template whose length the
    client compares with the free buffer space. */
module Line {
  import opened Wrappers
  import Utf8

  /** The wire type of each metric family. */
  datatype Kind = Counter | Timing | Gauge | Set | Annotation

  function Suffix(k: Kind): string {
    match k
    case Counter => "c"
    case Timing => "ms"
    case Gauge => "g"
    case Set => "s"
    case Annotation => "a"
  }

  function KindOf(suffix: string): Option<Kind> {
    if suffix == "c" then Some(Counter)
    else if suffix == "ms" then Some(Timing)
    else if suffix == "g" then Some(Gauge)
    else if suffix == "s" then Some(Set)
    else if suffix == "a" then Some(Annotation)
    else None
  }

  lemma KindOfSuffix(k: Kind, suffix: string)
    ensures KindOf(suffix) == Some(k) <==> suffix == Suffix(k)
  {
  }

  /** The format verb standing for the value in the Go client's template:
      `%s` for annotation text, `%d` for every integer-valued metric. */
  function Verb(k: Kind): string {
    if k == Annotation then "%s" else "%d"
  }

  /** A sample rate: its numeric value and its textual form (the `%g`
      rendering of the float, taken as given). */
  datatype Rate = Rate(value: real, text: string)

  /** The rate the fixed-rate methods pass. */
  const Always: Rate := Rate(1.0, "1")

  /** Outcome of the sampling gate. */
  datatype Gate = Unsampled | Sampled | Dropped

  /** The gate, given the random draw that the Go client takes only when the
      rate is below one. */
  function Decide(rate: real, draw: real): (g: Gate)
    ensures g == Unsampled <==> 1.0 <= rate
    ensures g == Sampled <==> rate < 1.0 && draw < rate
    ensures g == Dropped <==> rate < 1.0 && rate <= draw
  {
    if rate < 1.0 then (if draw < rate then Sampled else Dropped) else Unsampled
  }

  /** The `|@rate` marker: present exactly when the gate sampled the call. */
  function Marker(g: Gate, rate: Rate): (m: string)
    ensures g == Sampled ==> m == "|@" + rate.text
    ensures g != Sampled ==> m == ""
  {
    if g == Sampled then "|@" + rate.text else ""
  }

  /** The format string the Go client builds before expanding the value:
      `stat:%d|c` plus the marker. Its length drives the overflow check. */
  function Format(stat: string, k: Kind, marker: string): string {
    stat + ":" + Verb(k) + "|" + Suffix(k) + marker
  }

  /** The rendered line: the format with its verb replaced by the value. */
  function Render(stat: string, k: Kind, value: string, marker: string): (line: string)
    ensures |line| == |Format(stat, k, marker)| - 2 + |value|
    ensures line[..|stat|] == stat && line[|stat|] == ':'
    ensures line[|stat| + 1..] == value + "|" + Suffix(k) + marker
  {
    stat + ":" + value + "|" + Suffix(k) + marker
  }

  /** The fixed pieces of a line are ASCII. */
  lemma PieceSizes(k: Kind)
    ensures Utf8.Size(":") == 1 && Utf8.Size("|") == 1 && Utf8.Size(Verb(k)) == 2
    ensures Utf8.Size(Suffix(k)) == |Suffix(k)|
  {
  }

  /** The byte size of `stat + ":" + mid + "|" + Suffix(k) + marker`. */
  lemma LayoutSize(stat: string, mid: string, k: Kind, marker: string)
    ensures Utf8.Size(stat + ":" + mid + "|" + Suffix(k) + marker)
         == Utf8.Size(stat) + Utf8.Size(mid) + 2 + |Suffix(k)| + Utf8.Size(marker)
  {
    Utf8.SizeConcat(stat + ":" + mid + "|" + Suffix(k), marker);
    Utf8.SizeConcat(stat + ":" + mid + "|", Suffix(k));
    Utf8.SizeConcat(stat + ":" + mid, "|");
    Utf8.SizeConcat(stat + ":", mid);
    Utf8.SizeConcat(stat, ":");
    PieceSizes(k);
  }

  /** A template's byte size: the bucket and marker, plus `:`, the
      two-byte verb, `|` and the ASCII type suffix. */
  lemma FormatSize(stat: string, k: Kind, marker: string)
    ensures Utf8.Size(Format(stat, k, marker)) == Utf8.Size(stat) + 4 + |Suffix(k)| + Utf8.Size(marker)
  {
    LayoutSize(stat, Verb(k), k, marker);
    PieceSizes(k);
  }

  /** In UTF-8 bytes too, the line is the format less its two-byte verb
      plus the value. */
  lemma RenderSize(stat: string, k: Kind, value: string, marker: string)
    ensures Utf8.Size(Render(stat, k, value, marker)) + 2
         == Utf8.Size(Format(stat, k, marker)) + Utf8.Size(value)
  {
    LayoutSize(stat, value, k, marker);
    FormatSize(stat, k, marker);
  }

  /** The fields a StatsD server reads out of a line. */
  datatype Fields = Fields(bucket: string, value: string, kind: Kind, rate: Option<string>)

  /** No character of `s` is `ch`. */
  predicate Excludes(s: string, ch: char) {
    forall j :: 0 <= j < |s| ==> s[j] != ch
  }

  /** Position of the first `ch` in `s`, or `|s|` when there is none. */
  function IndexOf(s: string, ch: char): (i: nat)
    ensures i <= |s|
    ensures i < |s| ==> s[i] == ch
    ensures forall j :: 0 <= j < i ==> s[j] != ch
    decreases |s|
  {
    if |s| == 0 then 0 else if s[0] == ch then 0 else 1 + IndexOf(s[1..], ch)
  }

  /** Reads a line back: bucket up to the first `:`, value up to the next
      `|`, then the type and an optional `|@rate`. */
  function Parse(s: string): Option<Fields> {
    var i := IndexOf(s, ':');
    if i == |s| then None else ParseBody(s[..i], s[i + 1..])
  }

  function ParseBody(bucket: string, rest: string): Option<Fields> {
    var j := IndexOf(rest, '|');
    if j == |rest| then None
    else
      match ParseType(rest[j + 1..])
      case None => None
      case Some(t) => Some(Fields(bucket, rest[..j], t.0, t.1))
  }

  /** The type up to the next `|`; what follows it must be `@rate`. */
  function ParseType(tail: string): Option<(Kind, Option<string>)> {
    var k := IndexOf(tail, '|');
    match KindOf(tail[..k])
    case None => None
    case Some(kind) =>
      if k == |tail| then Some((kind, None))
      else if k + 1 < |tail| && tail[k + 1] == '@' then Some((kind, Some(tail[k + 2..])))
      else None
  }

  lemma IndexOfSplit(a: string, ch: char, b: string)
    requires Excludes(a, ch)
    ensures IndexOf(a + [ch] + b, ch) == |a|
  {
    var s := a + [ch] + b;
    assert s[|a|] == ch;
  }

  lemma ParseTypeOfMarker(k: Kind, g: Gate, rate: Rate)
    ensures ParseType(Suffix(k) + Marker(g, rate))
         == Some((k, if g == Sampled then Some(rate.text) else None))
  {
    KindOfSuffix(k, Suffix(k));
    if g == Sampled {
      ParseTypeSampled(Suffix(k), rate.text);
    } else {
      ParseTypeBare(Suffix(k));
    }
  }

  /** A suffix holds no `|`, so the type runs to the end of the tail. */
  lemma ParseTypeBare(suffix: string)
    requires KindOf(suffix).Some?
    ensures ParseType(suffix + "") == Some((KindOf(suffix).value, None))
  {
    assert suffix + "" == suffix;
    assert IndexOf(suffix, '|') == |suffix|;
    assert suffix[..|suffix|] == suffix;
  }

  lemma ParseTypeSampled(suffix: string, text: string)
    requires KindOf(suffix).Some?
    ensures ParseType(suffix + ("|@" + text)) == Some((KindOf(suffix).value, Some(text)))
  {
    var tail := suffix + ("|@" + text);
    assert tail == suffix + ['|'] + ("@" + text);
    assert Excludes(suffix, '|');
    IndexOfSplit(suffix, '|', "@" + text);
    assert tail[..|suffix|] == suffix;
    assert tail[|suffix| + 2..] == text;
  }

  lemma ParseSplit(stat: string, rest: string)
    requires Excludes(stat, ':')
    ensures Parse(stat + [':'] + rest) == ParseBody(stat, rest)
  {
    var s := stat + [':'] + rest;
    IndexOfSplit(stat, ':', rest);
    assert s[..|stat|] == stat && s[|stat| + 1..] == rest;
  }

  lemma ParseBodySplit(stat: string, value: string, tail: string)
    requires Excludes(value, '|')
    ensures ParseType(tail).Some? ==>
      ParseBody(stat, value + ['|'] + tail)
        == Some(Fields(stat, value, ParseType(tail).value.0, ParseType(tail).value.1))
  {
    var rest := value + ['|'] + tail;
    IndexOfSplit(value, '|', tail);
    assert rest[..|value|] == value && rest[|value| + 1..] == tail;
  }

  /** Reading back a rendered line recovers bucket, value, type and rate,
      provided the bucket holds no `:` and the value no `|`. */
  lemma ParseRender(stat: string, k: Kind, value: string, g: Gate, rate: Rate)
    requires Excludes(stat, ':')
    requires Excludes(value, '|')
    ensures Parse(Render(stat, k, value, Marker(g, rate)))
         == Some(Fields(stat, value, k, if g == Sampled then Some(rate.text) else None))
  {
    var tail := Suffix(k) + Marker(g, rate);
    var rest := value + ['|'] + tail;
    assert Render(stat, k, value, Marker(g, rate)) == stat + [':'] + rest;
    ParseSplit(stat, rest);
    ParseTypeOfMarker(k, g, rate);
    ParseBodySplit(stat, value, tail);
  }
}
