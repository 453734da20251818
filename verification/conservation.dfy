/** Conservation: every accepted line is either in exactly one transport
    write or still in the buffer, in order, with the lines of one packet
    joined by newlines and nothing between packets. */
module Conservation {
  import opened Line
  import opened Statsd

  /** The lines of one packet joined by newlines. */
  function JoinLines(ls: seq<string>): string
    decreases |ls|
  {
    if |ls| == 0 then ""
    else if |ls| == 1 then ls[0]
    else JoinLines(ls[..|ls| - 1]) + "\n" + ls[|ls| - 1]
  }

  /** Packets laid end to end, in order. */
  function Flatten(ps: seq<seq<string>>): seq<string>
    decreases |ps|
  {
    if |ps| == 0 then [] else Flatten(ps[..|ps| - 1]) + ps[|ps| - 1]
  }

  predicate NonEmptyLines(ls: seq<string>) {
    forall i :: 0 <= i < |ls| ==> ls[i] != []
  }

  /** `packets[i]` are the lines of the i-th transport write and `pending`
      the lines still in the buffer. */
  predicate Conserved(c: Client, packets: seq<seq<string>>, pending: seq<string>) {
    && |packets| == |c.sink|
    && (forall i :: 0 <= i < |packets| ==> packets[i] != [] && c.sink[i] == JoinLines(packets[i]))
    && c.buf == JoinLines(pending)
    && NonEmptyLines(Flatten(packets) + pending)
  }

  lemma NonEmptySplit(a: seq<string>, b: seq<string>)
    requires NonEmptyLines(a + b)
    ensures NonEmptyLines(a) && NonEmptyLines(b)
  {
    assert forall i :: 0 <= i < |a| ==> a[i] == (a + b)[i];
    assert forall i :: 0 <= i < |b| ==> b[i] == (a + b)[|a| + i];
  }

  lemma {:induction false} JoinLinesEmpty(ls: seq<string>)
    requires NonEmptyLines(ls)
    ensures JoinLines(ls) == [] <==> ls == []
    decreases |ls|
  {
    if |ls| > 1 {
      JoinLinesEmpty(ls[..|ls| - 1]);
    }
  }

  /** Appending a line to a buffer holding `ls` leaves the buffer holding
      `ls` plus that line: the separator goes in exactly between lines. */
  lemma AppendJoins(ls: seq<string>, line: string)
    requires NonEmptyLines(ls) && line != []
    ensures Append(JoinLines(ls), line) == JoinLines(ls + [line])
  {
    JoinLinesEmpty(ls);
    assert (ls + [line])[..|ls|] == ls;
  }

  lemma FlattenSnoc(ps: seq<seq<string>>, p: seq<string>)
    ensures Flatten(ps + [p]) == Flatten(ps) + p
  {
    assert (ps + [p])[..|ps|] == ps;
  }

  lemma RenderNonEmpty(stat: string, k: Kind, value: string, marker: string)
    ensures Render(stat, k, value, marker) != []
  {
    assert Render(stat, k, value, marker)[|stat|] == ':';
  }

  /** Appending an accepted line to the buffer keeps the books. The second
      clause regroups the accepted lines into the shape SendConserves
      states them in. */
  lemma AppendStep(c: Client, packets: seq<seq<string>>, pending: seq<string>, line: string)
    requires Conserved(c, packets, pending) && line != []
    ensures Conserved(c.(buf := Append(c.buf, line)), packets, pending + [line])
    ensures Flatten(packets) + (pending + [line]) == Flatten(packets) + pending + [line]
  {
    NonEmptySplit(Flatten(packets), pending);
    AppendJoins(pending, line);
    var all := Flatten(packets) + (pending + [line]);
    assert all == (Flatten(packets) + pending) + [line];
  }

  /** Writing a non-empty buffer out turns its lines into one packet. */
  lemma PacketStep(c: Client, packets: seq<seq<string>>, pending: seq<string>)
    requires Conserved(c, packets, pending) && c.buf != []
    ensures Conserved(c.(buf := "", sink := c.sink + [c.buf]), packets + [pending], [])
    ensures Flatten(packets + [pending]) == Flatten(packets) + pending
  {
    NonEmptySplit(Flatten(packets), pending);
    JoinLinesEmpty(pending);
    FlattenSnoc(packets, pending);
    assert Flatten(packets + [pending]) + [] == Flatten(packets) + pending;
  }

  /** A send keeps the books: the accepted line joins the pending lines, or,
      after a forced flush, the pending lines become a packet and the line
      starts a new buffer. A dropped or panicking call changes nothing. */
  lemma SendConserves(c: Client, packets: seq<seq<string>>, pending: seq<string>,
                      name: string, rate: Rate, k: Kind, value: string, draw: real, io: IoResult)
    returns (packets': seq<seq<string>>, pending': seq<string>)
    requires Conserved(c, packets, pending)
    ensures var r := Send(c, name, rate, k, value, draw, io);
      && Conserved(r.client, packets', pending')
      && Flatten(packets') + pending'
         == Flatten(packets) + pending + (if r.fate.Appended? then [r.fate.line] else [])
  {
    var r := Send(c, name, rate, k, value, draw, io);
    packets', pending' := packets, pending;
    if r.fate.Appended? {
      var line := r.fate.line;
      RenderNonEmpty(c.prefix + name, k, value, Marker(Decide(rate.value, draw), rate));
      if !r.fate.forced {
        assert r.client == c.(buf := Append(c.buf, line));
        AppendStep(c, packets, pending, line);
        pending' := pending + [line];
      } else if c.buf == [] {
        NonEmptySplit(Flatten(packets), pending);
        JoinLinesEmpty(pending);
        assert r.client == c.(buf := Append(c.buf, line));
        AppendStep(c, packets, pending, line);
        pending' := pending + [line];
      } else {
        var flushed := c.(buf := "", sink := c.sink + [c.buf]);
        PacketStep(c, packets, pending);
        assert r.client == flushed.(buf := Append(flushed.buf, line));
        AppendStep(flushed, packets + [pending], [], line);
        packets', pending' := packets + [pending], [line];
      }
    }
  }

  /** A flush moves the pending lines into one new packet, or changes
      nothing. */
  lemma FlushConserves(c: Client, packets: seq<seq<string>>, pending: seq<string>, io: IoResult)
    returns (packets': seq<seq<string>>, pending': seq<string>)
    requires Conserved(c, packets, pending)
    ensures Conserved(Flush(c, io).client, packets', pending')
    ensures Flatten(packets') + pending' == Flatten(packets) + pending
    ensures Flush(c, io).reply == Nil ==> pending' == []
  {
    packets', pending' := packets, pending;
    NonEmptySplit(Flatten(packets), pending);
    JoinLinesEmpty(pending);
    if Flush(c, io).reply == Nil && c.buf != [] {
      PacketStep(c, packets, pending);
      packets', pending' := packets + [pending], [];
    }
  }

  /** Close delivers every pending line before the buffer is released. */
  lemma CloseConserves(c: Client, packets: seq<seq<string>>, pending: seq<string>, io: IoResult, closing: IoResult)
    returns (packets': seq<seq<string>>)
    requires Conserved(c, packets, pending)
    ensures var r := Close(c, io, closing);
      !r.client.open && c.open ==> Conserved(r.client, packets', []) && Flatten(packets') == Flatten(packets) + pending
  {
    var p, q := FlushConserves(c, packets, pending, io);
    packets' := p;
  }

  /** One call on the client, with everything the environment decides
      (random draw, transport answers) fixed in advance. */
  datatype Op =
    | Emit(name: string, rate: Rate, kind: Kind, value: string, draw: real, io: IoResult)
    | FlushOp(io: IoResult)
    | PrefixOp(prefix: string)

  /** One call: the client after it and the line it accepted, if any. */
  function Apply(c: Client, op: Op): (Client, seq<string>) {
    match op
    case Emit(name, rate, k, value, draw, io) =>
      var r := Send(c, name, rate, k, value, draw, io);
      (r.client, if r.fate.Appended? then [r.fate.line] else [])
    case FlushOp(io) => (Flush(c, io).client, [])
    case PrefixOp(s) => (SetPrefix(c, s), [])
  }

  /** Runs a sequence of calls; returns the final client and the lines the
      calls accepted into the buffer, in order. */
  function Run(c: Client, ops: seq<Op>): (Client, seq<string>)
    decreases |ops|
  {
    if ops == [] then (c, [])
    else
      var step := Apply(c, ops[0]);
      var rest := Run(step.0, ops[1..]);
      (rest.0, step.1 + rest.1)
  }

  lemma ApplyConserves(c: Client, op: Op, packets: seq<seq<string>>, pending: seq<string>)
    returns (packets': seq<seq<string>>, pending': seq<string>)
    requires Conserved(c, packets, pending)
    ensures Conserved(Apply(c, op).0, packets', pending')
    ensures Flatten(packets') + pending' == Flatten(packets) + pending + Apply(c, op).1
  {
    match op {
      case Emit(name, rate, k, value, draw, io) =>
        packets', pending' := SendConserves(c, packets, pending, name, rate, k, value, draw, io);
      case FlushOp(io) =>
        packets', pending' := FlushConserves(c, packets, pending, io);
      case PrefixOp(s) =>
        packets', pending' := packets, pending;
    }
  }

  lemma {:induction false} RunConserves(c: Client, ops: seq<Op>, packets: seq<seq<string>>, pending: seq<string>)
    returns (packets': seq<seq<string>>, pending': seq<string>)
    requires Conserved(c, packets, pending)
    ensures Conserved(Run(c, ops).0, packets', pending')
    ensures Flatten(packets') + pending' == Flatten(packets) + pending + Run(c, ops).1
    decreases |ops|
  {
    if ops == [] {
      packets', pending' := packets, pending;
    } else {
      var step := Apply(c, ops[0]);
      var p, q := ApplyConserves(c, ops[0], packets, pending);
      packets', pending' := RunConserves(step.0, ops[1..], p, q);
      RunUnfold(c, ops);
      Regroup(Flatten(packets) + pending, step.1, Run(step.0, ops[1..]).1);
    }
  }

  lemma RunUnfold(c: Client, ops: seq<Op>)
    requires ops != []
    ensures Run(c, ops).0 == Run(Apply(c, ops[0]).0, ops[1..]).0
    ensures Run(c, ops).1 == Apply(c, ops[0]).1 + Run(Apply(c, ops[0]).0, ops[1..]).1
  {
  }

  /** Associativity of concatenation, kept as its own step so that
      RunConserves's proof stays small. */
  lemma Regroup(a: seq<string>, b: seq<string>, d: seq<string>)
    ensures a + b + d == a + (b + d)
  {
  }

  /** From a fresh client, whatever the calls and whatever the transport
      answers, the transport writes followed by the buffer hold exactly the
      accepted lines, each packet newline-joined. */
  lemma FreshRunConserves(size: int, ops: seq<Op>)
    returns (packets: seq<seq<string>>, pending: seq<string>)
    ensures Conserved(Run(New(size), ops).0, packets, pending)
    ensures Flatten(packets) + pending == Run(New(size), ops).1
  {
    assert Conserved(New(size), [], []);
    packets, pending := RunConserves(New(size), ops, [], []);
  }

  /** Neither empty nor starting or ending with a newline. */
  predicate Framed(s: string) {
    |s| > 0 && s[0] != '\n' && s[|s| - 1] != '\n'
  }

  predicate StartsClean(s: string) {
    s == [] || s[0] != '\n'
  }

  predicate EndsClean(s: string) {
    s == [] || s[|s| - 1] != '\n'
  }

  predicate FramedLines(ls: seq<string>) {
    forall i :: 0 <= i < |ls| ==> Framed(ls[i])
  }

  lemma {:induction false} JoinFramed(ls: seq<string>)
    requires ls != []
    requires forall i :: 0 <= i < |ls| ==> Framed(ls[i])
    ensures Framed(JoinLines(ls))
    decreases |ls|
  {
    if |ls| > 1 {
      JoinFramed(ls[..|ls| - 1]);
    }
  }

  /** A rendered line is framed unless the bucket starts, or the rate text
      ends, with a newline. */
  lemma RenderFramed(stat: string, k: Kind, value: string, g: Gate, rate: Rate)
    requires StartsClean(stat)
    requires g == Sampled ==> EndsClean(rate.text)
    ensures Framed(Render(stat, k, value, Marker(g, rate)))
  {
    var line := Render(stat, k, value, Marker(g, rate));
    assert line == stat + ":" + value + "|" + Suffix(k) + Marker(g, rate);
    if stat == [] {
      assert line[0] == ':';
    } else {
      assert line[0] == stat[0];
    }
  }

  /** Whenever the accepted lines are framed, so is every transport write:
      a packet never starts or ends with the separator. */
  lemma PacketsFramed(c: Client, packets: seq<seq<string>>, pending: seq<string>)
    requires Conserved(c, packets, pending)
    requires forall i, j :: 0 <= i < |packets| && 0 <= j < |packets[i]| ==> Framed(packets[i][j])
    ensures forall i :: 0 <= i < |c.sink| ==> Framed(c.sink[i])
  {
    forall i | 0 <= i < |c.sink|
      ensures Framed(c.sink[i])
    {
      JoinFramed(packets[i]);
    }
  }

  /** A call whose own text cannot put a newline at the edge of a line:
      the metric name and a new prefix do not start with one, and the
      rate text does not end with one. */
  predicate CleanOp(op: Op) {
    match op
    case Emit(name, rate, _, _, _, _) => StartsClean(name) && EndsClean(rate.text)
    case FlushOp(_) => true
    case PrefixOp(s) => StartsClean(s)
  }

  lemma ApplyFramed(c: Client, op: Op)
    requires StartsClean(c.prefix) && CleanOp(op)
    ensures StartsClean(Apply(c, op).0.prefix)
    ensures FramedLines(Apply(c, op).1)
  {
    match op {
      case Emit(name, rate, k, value, draw, io) =>
        var stat := c.prefix + name;
        assert StartsClean(stat) by {
          if c.prefix != [] {
            assert stat[0] == c.prefix[0];
          } else {
            assert stat == name;
          }
        }
        RenderFramed(stat, k, value, Decide(rate.value, draw), rate);
      case FlushOp(io) =>
      case PrefixOp(s) =>
    }
  }

  lemma FramedConcat(a: seq<string>, b: seq<string>)
    requires FramedLines(a) && FramedLines(b)
    ensures FramedLines(a + b)
  {
    forall i | 0 <= i < |a + b| ensures Framed((a + b)[i]) {
      if i >= |a| {
        assert (a + b)[i] == b[i - |a|];
      }
    }
  }

  /** Clean calls on a client with a clean prefix accept only framed
      lines. */
  lemma {:induction false} RunFramedLines(c: Client, ops: seq<Op>)
    requires StartsClean(c.prefix)
    requires forall i :: 0 <= i < |ops| ==> CleanOp(ops[i])
    ensures FramedLines(Run(c, ops).1)
    decreases |ops|
  {
    if ops != [] {
      var step := Apply(c, ops[0]);
      ApplyFramed(c, ops[0]);
      assert forall i :: 0 <= i < |ops[1..]| ==> ops[1..][i] == ops[i + 1];
      RunFramedLines(step.0, ops[1..]);
      RunUnfold(c, ops);
      FramedConcat(step.1, Run(step.0, ops[1..]).1);
    }
  }

  /** Every line of every packet is framed when the packets laid end to
      end are. */
  lemma {:induction false} FlattenFramed(ps: seq<seq<string>>)
    requires FramedLines(Flatten(ps))
    ensures forall i, j :: 0 <= i < |ps| && 0 <= j < |ps[i]| ==> Framed(ps[i][j])
    decreases |ps|
  {
    if ps != [] {
      var init := ps[..|ps| - 1];
      var last := ps[|ps| - 1];
      assert Flatten(ps) == Flatten(init) + last;
      assert forall k :: 0 <= k < |Flatten(init)| ==> Flatten(init)[k] == Flatten(ps)[k];
      FlattenFramed(init);
      forall i, j | 0 <= i < |ps| && 0 <= j < |ps[i]|
        ensures Framed(ps[i][j])
      {
        if i < |ps| - 1 {
          assert ps[i] == init[i];
        } else {
          assert ps[i][j] == Flatten(ps)[|Flatten(init)| + j];
        }
      }
    }
  }

  /** From a fresh client, clean calls never put a newline at the start or
      end of a transport write or of the buffered text, whatever the
      transport answers. */
  lemma FreshRunFramed(size: int, ops: seq<Op>)
    requires forall i :: 0 <= i < |ops| ==> CleanOp(ops[i])
    ensures var c := Run(New(size), ops).0;
      && (forall i :: 0 <= i < |c.sink| ==> Framed(c.sink[i]))
      && (c.buf == [] || Framed(c.buf))
  {
    var c := Run(New(size), ops).0;
    var packets, pending := FreshRunConserves(size, ops);
    RunFramedLines(New(size), ops);
    var all := Flatten(packets) + pending;
    assert forall k :: 0 <= k < |Flatten(packets)| ==> all[k] == Flatten(packets)[k];
    assert forall k :: 0 <= k < |pending| ==> all[|Flatten(packets)| + k] == pending[k];
    FlattenFramed(packets);
    PacketsFramed(c, packets, pending);
    if pending != [] {
      JoinFramed(pending);
    }
  }

  /** Two sends into an empty buffer, with no flush forced, leave the two
      lines joined by a single newline. */
  lemma TwoSendsJoin(c: Client, name1: string, value1: string, name2: string, value2: string, k: Kind, io: IoResult)
    requires c.buf == []
    ensures var r1 := Send(c, name1, Always, k, value1, 0.0, io);
      var r2 := Send(r1.client, name2, Always, k, value2, 0.0, io);
      r1.fate.Appended? && r2.fate.Appended? && !r2.fate.forced ==>
        r2.client.buf == r1.fate.line + "\n" + r2.fate.line && r2.client.sink == r1.client.sink
  {
    var r1 := Send(c, name1, Always, k, value1, 0.0, io);
    if r1.fate.Appended? {
      RenderNonEmpty(c.prefix + name1, k, value1, Marker(Unsampled, Always));
    }
  }
}
