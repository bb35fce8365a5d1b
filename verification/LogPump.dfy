/**
 The log pump of backend/xray/log.go: two readers, one for each pipe of the core, push lines into one bounded
 channel without ever blocking, while any number of receivers take lines out of it.
 */
module LogPump {
  import opened Options

  // A line of pipe 0 (stdout) or 1 (stderr).
  datatype Line = Line(pipe: nat, text: string)

  // A line that a reader offered to the channel, and what became of it.
  datatype Offer = Offer(line: Line, kept: bool)

  // `waiting` receivers are blocked on the channel; `read` counts the lines read from each pipe.
  datatype Pump = Pump(queue: seq<Line>, waiting: nat, received: seq<Line>, offers: seq<Offer>,
                       read: map<nat, nat>)

  datatype Step =
    | OfferLine(pipe: nat)    // a reader scans its next line and offers it
    | Receive                 // a receiver arrives: it takes the first line or blocks
    | GiveUp                  // a blocked receiver's context ends

  predicate Enabled(outputs: map<nat, seq<string>>, p: Pump, a: Step) {
    match a
    case OfferLine(pipe) => pipe in outputs && pipe in p.read && p.read[pipe] < |outputs[pipe]|
    case Receive => true
    case GiveUp => p.waiting > 0
  }

  // The non-blocking send: a blocked receiver gets the line, else it is queued, else it is dropped.
  function Send(p: Pump, capacity: nat, line: Line): Pump {
    if p.waiting > 0 then
      p.(waiting := p.waiting - 1, received := p.received + [line], offers := p.offers + [Offer(line, true)])
    else if |p.queue| < capacity then
      p.(queue := p.queue + [line], offers := p.offers + [Offer(line, true)])
    else
      p.(offers := p.offers + [Offer(line, false)])
  }

  function Taken(p: Pump): Pump {
    if p.queue == [] then p.(waiting := p.waiting + 1)
    else p.(queue := p.queue[1..], received := p.received + [p.queue[0]])
  }

  function Next(outputs: map<nat, seq<string>>, capacity: nat, p: Pump, a: Step): Pump
    requires Enabled(outputs, p, a)
  {
    match a
    case OfferLine(pipe) =>
      Send(p, capacity, Line(pipe, outputs[pipe][p.read[pipe]])).(read := p.read[pipe := p.read[pipe] + 1])
    case Receive => Taken(p)
    case GiveUp => p.(waiting := p.waiting - 1)
  }

  function Initial(outputs: map<nat, seq<string>>): Pump {
    Pump([], 0, [], [], map pipe | pipe in outputs :: 0)
  }

  // The pump after these steps, in any interleaving of readers and receivers; None if one of them cannot happen.
  function Run(outputs: map<nat, seq<string>>, capacity: nat, steps: seq<Step>): Option<Pump> {
    if steps == [] then Some(Initial(outputs))
    else
      var last := steps[|steps| - 1];
      match Run(outputs, capacity, steps[..|steps| - 1])
      case None => None
      case Some(p) => if Enabled(outputs, p, last) then Some(Next(outputs, capacity, p, last)) else None
  }

  // ---------- what happened to the lines ----------

  function Kept(offers: seq<Offer>): seq<Line> {
    if offers == [] then []
    else
      var init, last := Kept(offers[..|offers| - 1]), offers[|offers| - 1];
      if last.kept then init + [last.line] else init
  }

  function Dropped(offers: seq<Offer>): nat {
    if offers == [] then 0
    else Dropped(offers[..|offers| - 1]) + (if offers[|offers| - 1].kept then 0 else 1)
  }

  // The texts of one pipe, in order.
  function FromPipe(lines: seq<Line>, pipe: nat): seq<string> {
    if lines == [] then []
    else
      var init, last := FromPipe(lines[..|lines| - 1], pipe), lines[|lines| - 1];
      if last.pipe == pipe then init + [last.text] else init
  }

  function Offered(offers: seq<Offer>): seq<Line> {
    if offers == [] then [] else Offered(offers[..|offers| - 1]) + [offers[|offers| - 1].line]
  }

  // xs is what remains of ys after leaving some elements out.
  ghost predicate Subsequence(xs: seq<string>, ys: seq<string>)
    decreases |ys|
  {
    if xs == [] then true
    else if ys == [] then false
    else Subsequence(xs, ys[..|ys| - 1])
         || (xs[|xs| - 1] == ys[|ys| - 1] && Subsequence(xs[..|xs| - 1], ys[..|ys| - 1]))
  }

  ghost predicate Conserved(outputs: map<nat, seq<string>>, capacity: nat, p: Pump) {
    && p.received + p.queue == Kept(p.offers)
    && |p.queue| <= capacity
    && (p.waiting > 0 ==> p.queue == [])
    && p.read.Keys == outputs.Keys
    && (forall pipe :: pipe in outputs ==>
          p.read[pipe] <= |outputs[pipe]| && FromPipe(Offered(p.offers), pipe) == outputs[pipe][..p.read[pipe]])
  }

  lemma KeptSnoc(offers: seq<Offer>, o: Offer)
    ensures Kept(offers + [o]) == if o.kept then Kept(offers) + [o.line] else Kept(offers)
    ensures Dropped(offers + [o]) == Dropped(offers) + (if o.kept then 0 else 1)
    ensures Offered(offers + [o]) == Offered(offers) + [o.line]
  {
    assert (offers + [o])[..|offers|] == offers;
  }

  lemma FromPipeSnoc(lines: seq<Line>, l: Line, pipe: nat)
    ensures FromPipe(lines + [l], pipe) ==
            if l.pipe == pipe then FromPipe(lines, pipe) + [l.text] else FromPipe(lines, pipe)
  {
    assert (lines + [l])[..|lines|] == lines;
  }

  lemma SendConserves(p: Pump, capacity: nat, line: Line)
    requires p.received + p.queue == Kept(p.offers) && |p.queue| <= capacity && (p.waiting > 0 ==> p.queue == [])
    ensures var q := Send(p, capacity, line);
            && q.received + q.queue == Kept(q.offers) && |q.queue| <= capacity && (q.waiting > 0 ==> q.queue == [])
            && Offered(q.offers) == Offered(p.offers) + [line]
  {
    KeptSnoc(p.offers, Offer(line, true));
    KeptSnoc(p.offers, Offer(line, false));
    if p.waiting > 0 {
      assert p.received + [line] + [] == p.received + [] + [line];
    } else {
      assert p.received + (p.queue + [line]) == p.received + p.queue + [line];
    }
  }

  // What the readers have offered so far is what they have read.
  lemma OfferExtends(outputs: map<nat, seq<string>>, p: Pump, pipe: nat, other: nat)
    requires pipe in outputs && other in outputs && pipe in p.read && other in p.read
    requires p.read[pipe] < |outputs[pipe]| && p.read[other] <= |outputs[other]|
    requires FromPipe(Offered(p.offers), other) == outputs[other][..p.read[other]]
    ensures FromPipe(Offered(p.offers) + [Line(pipe, outputs[pipe][p.read[pipe]])], other)
         == outputs[other][..if other == pipe then p.read[pipe] + 1 else p.read[other]]
  {
    FromPipeSnoc(Offered(p.offers), Line(pipe, outputs[pipe][p.read[pipe]]), other);
  }

  lemma OfferConserves(outputs: map<nat, seq<string>>, capacity: nat, p: Pump, pipe: nat)
    requires Conserved(outputs, capacity, p) && Enabled(outputs, p, OfferLine(pipe))
    ensures Conserved(outputs, capacity, Next(outputs, capacity, p, OfferLine(pipe)))
  {
    var line := Line(pipe, outputs[pipe][p.read[pipe]]);
    var q := Next(outputs, capacity, p, OfferLine(pipe));
    SendConserves(p, capacity, line);
    assert q.offers == Send(p, capacity, line).offers && q.read == p.read[pipe := p.read[pipe] + 1];
    forall other | other in outputs
      ensures q.read[other] <= |outputs[other]|
      ensures FromPipe(Offered(q.offers), other) == outputs[other][..q.read[other]]
    {
      OfferExtends(outputs, p, pipe, other);
    }
  }

  lemma ReceiveConserves(outputs: map<nat, seq<string>>, capacity: nat, p: Pump)
    requires Conserved(outputs, capacity, p)
    ensures Conserved(outputs, capacity, Taken(p))
  {
    if p.queue != [] {
      assert p.received + [p.queue[0]] + p.queue[1..] == p.received + p.queue;
    }
  }

  lemma NextConserves(outputs: map<nat, seq<string>>, capacity: nat, p: Pump, a: Step)
    requires Conserved(outputs, capacity, p) && Enabled(outputs, p, a)
    ensures Conserved(outputs, capacity, Next(outputs, capacity, p, a))
  {
    match a
    case OfferLine(pipe) => OfferConserves(outputs, capacity, p, pipe);
    case Receive => ReceiveConserves(outputs, capacity, p);
    case GiveUp =>
  }

  lemma {:induction false} ReachedConserved(outputs: map<nat, seq<string>>, capacity: nat, steps: seq<Step>)
    requires Run(outputs, capacity, steps).Some?
    ensures Conserved(outputs, capacity, Run(outputs, capacity, steps).value)
  {
    if steps != [] {
      var init, last := steps[..|steps| - 1], steps[|steps| - 1];
      ReachedConserved(outputs, capacity, init);
      NextConserves(outputs, capacity, Run(outputs, capacity, init).value, last);
    }
  }

  lemma {:induction false} KeptCounts(offers: seq<Offer>)
    ensures |offers| == |Kept(offers)| + Dropped(offers)
  {
    if offers != [] {
      KeptCounts(offers[..|offers| - 1]);
    }
  }

  /**
   Every line that was offered was received, is queued, or was dropped; the channel never holds more than its
   capacity; and what was received, then what is queued, is what was kept, in the order in which it was offered.
   */
  lemma LinesConserved(outputs: map<nat, seq<string>>, capacity: nat, steps: seq<Step>, p: Pump)
    requires Run(outputs, capacity, steps) == Some(p)
    ensures |p.offers| == |p.received| + |p.queue| + Dropped(p.offers)
    ensures |p.queue| <= capacity
    ensures p.received + p.queue == Kept(p.offers)
  {
    ReachedConserved(outputs, capacity, steps);
    KeptCounts(p.offers);
  }

  /** A reader drops a line exactly when the channel is full and no receiver is blocked on it. */
  lemma DropsIffFull(outputs: map<nat, seq<string>>, capacity: nat, steps: seq<Step>, p: Pump, pipe: nat)
    requires Run(outputs, capacity, steps) == Some(p) && Enabled(outputs, p, OfferLine(pipe))
    ensures var q := Next(outputs, capacity, p, OfferLine(pipe));
            Dropped(q.offers) == Dropped(p.offers) + (if |p.queue| == capacity && p.waiting == 0 then 1 else 0)
  {
    ReachedConserved(outputs, capacity, steps);
    var line := Line(pipe, outputs[pipe][p.read[pipe]]);
    KeptSnoc(p.offers, Offer(line, true));
    KeptSnoc(p.offers, Offer(line, false));
  }

  lemma {:induction false} SubsequenceExtends(xs: seq<string>, ys: seq<string>, y: string)
    requires Subsequence(xs, ys)
    ensures Subsequence(xs, ys + [y]) && Subsequence(xs + [y], ys + [y])
  {
    assert (ys + [y])[..|ys|] == ys && (xs + [y])[..|xs|] == xs;
  }

  lemma {:induction false} SubsequencePrefix(xs: seq<string>, ys: seq<string>, k: nat)
    requires Subsequence(xs, ys) && k <= |xs|
    ensures Subsequence(xs[..k], ys)
    decreases |ys|
  {
    if k == |xs| {
      assert xs[..k] == xs;
    } else if k > 0 {
      var init := ys[..|ys| - 1];
      if Subsequence(xs, init) {
        SubsequencePrefix(xs, init, k);
      } else {
        SubsequencePrefix(xs[..|xs| - 1], init, k);
        assert xs[..|xs| - 1][..k] == xs[..k];
      }
    }
  }

  // Element i of xs is the one at place at[i] of ys, and the places ascend.
  ghost predicate Picks(at: seq<nat>, xs: seq<string>, ys: seq<string>) {
    && |at| == |xs|
    && (forall i :: 0 <= i < |at| ==> at[i] < |ys| && xs[i] == ys[at[i]])
    && (forall i, j :: 0 <= i < j < |at| ==> at[i] < at[j])
  }

  lemma {:induction false} Picked(xs: seq<string>, ys: seq<string>) returns (at: seq<nat>)
    requires Subsequence(xs, ys)
    ensures Picks(at, xs, ys)
    decreases |ys|
  {
    if xs == [] {
      at := [];
    } else {
      var rest := ys[..|ys| - 1];
      if Subsequence(xs, rest) {
        at := Picked(xs, rest);
      } else {
        at := Picked(xs[..|xs| - 1], rest);
        at := at + [|ys| - 1];
      }
    }
  }

  lemma {:induction false} KeptIsSubsequence(offers: seq<Offer>, pipe: nat)
    ensures Subsequence(FromPipe(Kept(offers), pipe), FromPipe(Offered(offers), pipe))
  {
    if offers != [] {
      var init, last := offers[..|offers| - 1], offers[|offers| - 1];
      KeptIsSubsequence(init, pipe);
      FromPipeSnoc(Kept(init), last.line, pipe);
      FromPipeSnoc(Offered(init), last.line, pipe);
      if last.line.pipe == pipe {
        SubsequenceExtends(FromPipe(Kept(init), pipe), FromPipe(Offered(init), pipe), last.line.text);
      }
    }
  }

  lemma {:induction false} FromPipePrefix(xs: seq<Line>, ys: seq<Line>, pipe: nat)
    ensures |FromPipe(xs, pipe)| <= |FromPipe(xs + ys, pipe)|
    ensures FromPipe(xs + ys, pipe)[..|FromPipe(xs, pipe)|] == FromPipe(xs, pipe)
  {
    if ys == [] {
      assert xs + ys == xs;
    } else {
      var init, last := ys[..|ys| - 1], ys[|ys| - 1];
      FromPipePrefix(xs, init, pipe);
      FromPipeSnoc(xs + init, last, pipe);
      assert xs + ys == (xs + init) + [last];
    }
  }

  /** The lines received from a pipe are a subsequence of what the pipe has put out, in its order. */
  lemma ReceivedInOrder(outputs: map<nat, seq<string>>, capacity: nat, steps: seq<Step>, p: Pump, pipe: nat)
    requires Run(outputs, capacity, steps) == Some(p) && pipe in outputs
    ensures pipe in p.read && p.read[pipe] <= |outputs[pipe]|
    ensures exists at: seq<nat> :: Picks(at, FromPipe(p.received, pipe), outputs[pipe][..p.read[pipe]])
  {
    ReachedConserved(outputs, capacity, steps);
    KeptIsSubsequence(p.offers, pipe);
    FromPipePrefix(p.received, p.queue, pipe);
    SubsequencePrefix(FromPipe(Kept(p.offers), pipe), FromPipe(Offered(p.offers), pipe), |FromPipe(p.received, pipe)|);
    var at := Picked(FromPipe(p.received, pipe), outputs[pipe][..p.read[pipe]]);
  }

  // ---------- the reader ----------

  // What is received and queued is what was kept, and the channel is within its bounds.
  ghost predicate InOrder(p: Pump, capacity: nat) {
    p.received + p.queue == Kept(p.offers) && |p.queue| <= capacity && (p.waiting > 0 ==> p.queue == [])
  }

  // The lines sent one after another, while nothing is received.
  function SendAll(p: Pump, capacity: nat, lines: seq<Line>): Pump {
    if lines == [] then p else Send(SendAll(p, capacity, lines[..|lines| - 1]), capacity, lines[|lines| - 1])
  }

  function LinesOf(pipe: nat, texts: seq<string>): (lines: seq<Line>)
    ensures |lines| == |texts| && forall i :: 0 <= i < |lines| ==> lines[i] == Line(pipe, texts[i])
  {
    seq(|texts|, (i: nat) requires i < |texts| => Line(pipe, texts[i]))
  }

  // As many lines as receivers wait and places are free.
  function Room(p: Pump, capacity: nat): nat
    requires |p.queue| <= capacity
  {
    p.waiting + (capacity - |p.queue|)
  }

  lemma SendMeans(p: Pump, capacity: nat, line: Line)
    requires InOrder(p, capacity)
    ensures var q := Send(p, capacity, line);
            && InOrder(q, capacity)
            && (if Room(p, capacity) > 0
                then q.received + q.queue == p.received + p.queue + [line] && Dropped(q.offers) == Dropped(p.offers)
                     && Room(q, capacity) == Room(p, capacity) - 1
                else q.received + q.queue == p.received + p.queue && Dropped(q.offers) == Dropped(p.offers) + 1
                     && Room(q, capacity) == 0)
  {
    SendConserves(p, capacity, line);
    KeptSnoc(p.offers, Offer(line, true));
    KeptSnoc(p.offers, Offer(line, false));
  }

  // Of these lines the first are received or queued, as many as there is room, and the rest dropped.
  ghost predicate Delivered(p: Pump, capacity: nat, lines: seq<Line>, q: Pump)
    requires InOrder(p, capacity)
  {
    var kept := if |lines| <= Room(p, capacity) then |lines| else Room(p, capacity);
    && InOrder(q, capacity) && Room(q, capacity) == Room(p, capacity) - kept
    && q.received + q.queue == p.received + p.queue + lines[..kept]
    && Dropped(q.offers) == Dropped(p.offers) + (|lines| - kept)
  }

  lemma DeliveredNone(p: Pump, capacity: nat)
    requires InOrder(p, capacity)
    ensures Delivered(p, capacity, [], p)
  {
    assert p.received + p.queue + [] == p.received + p.queue;
  }

  lemma DeliveredOneMore(p: Pump, capacity: nat, lines: seq<Line>, q: Pump, line: Line)
    requires InOrder(p, capacity) && Delivered(p, capacity, lines, q)
    ensures Delivered(p, capacity, lines + [line], Send(q, capacity, line))
  {
    SendMeans(q, capacity, line);
    var room := Room(p, capacity);
    if |lines| < room {
      assert lines[..|lines|] == lines && (lines + [line])[..|lines| + 1] == lines + [line];
      assert p.received + p.queue + lines + [line] == p.received + p.queue + (lines + [line]);
    } else {
      assert (lines + [line])[..room] == lines[..room];
    }
  }

  /**
   Of the lines sent one after another the first are received or queued, as many as there is room, and the rest
   dropped.
   */
  lemma {:induction false} SendAllMeans(p: Pump, capacity: nat, lines: seq<Line>)
    requires InOrder(p, capacity)
    ensures Delivered(p, capacity, lines, SendAll(p, capacity, lines))
  {
    if lines == [] {
      DeliveredNone(p, capacity);
    } else {
      var init, last := lines[..|lines| - 1], lines[|lines| - 1];
      SendAllMeans(p, capacity, init);
      DeliveredOneMore(p, capacity, init, SendAll(p, capacity, init), last);
      assert init + [last] == lines;
    }
  }

  // A line for the log files: an access line or another one.
  datatype Entry = Entry(access: bool, text: string)

  class LogChannel {
    const capacity: nat
    var queue: seq<Line>
    var waiting: nat
    var received: seq<Line>
    ghost var offers: seq<Offer>

    ghost predicate Valid()
      reads this
    {
      InOrder(Now(), capacity)
    }

    constructor (capacity: nat)
      ensures Valid() && this.capacity == capacity
      ensures queue == [] && waiting == 0 && received == [] && offers == []
    {
      this.capacity := capacity;
      queue, waiting, received, offers := [], 0, [], [];
    }

    ghost function Now(): Pump
      reads this
    {
      Pump(queue, waiting, received, offers, map[])
    }

    // A blocked receiver gets the line, else it is queued if there is room.
    method TrySend(line: Line) returns (sent: bool)
      requires Valid()
      modifies this
      ensures Valid() && Now() == Send(old(Now()), capacity, line)
      ensures offers == old(offers) + [Offer(line, sent)]
      ensures sent <==> old(waiting) > 0 || old(|queue|) < capacity
      ensures received + queue == if sent then old(received + queue) + [line] else old(received + queue)
    {
      SendMeans(Now(), capacity, line);
      sent := Offers(line);
    }

    // The select with its default branch.
    method Offers(line: Line) returns (sent: bool)
      modifies this
      ensures Now() == Send(old(Now()), capacity, line)
      ensures offers == old(offers) + [Offer(line, sent)]
      ensures sent <==> old(waiting) > 0 || old(|queue|) < capacity
    {
      if waiting > 0 {
        waiting, received, sent := waiting - 1, received + [line], true;
      } else if |queue| < capacity {
        queue, sent := queue + [line], true;
      } else {
        sent := false;
      }
      offers := offers + [Offer(line, sent)];
    }

    // captureProcessLogs on one pipe until it ends or, after `stopAfter` lines, the context is cancelled. Every line
    // is offered to the channel, and all of them go to the log files; see Delivered for what becomes of the offers.
    method Capture(pipe: nat, output: seq<string>, stopAfter: nat, isAccess: string -> bool)
      returns (logged: seq<Entry>)
      requires Valid()
      modifies this
      ensures Valid()
      ensures |logged| == if stopAfter < |output| then stopAfter else |output|
      ensures forall i :: 0 <= i < |logged| ==> logged[i] == Entry(isAccess(output[i]), output[i])
      ensures Delivered(old(Now()), capacity, LinesOf(pipe, output[..|logged|]), Now())
    {
      ghost var first := Now();
      logged := CaptureLines(pipe, output, stopAfter, isAccess);
      SendAllMeans(first, capacity, LinesOf(pipe, output[..|logged|]));
    }

    // Its loop.
    method CaptureLines(pipe: nat, output: seq<string>, stopAfter: nat, isAccess: string -> bool)
      returns (logged: seq<Entry>)
      requires Valid()
      modifies this
      ensures |logged| == if stopAfter < |output| then stopAfter else |output|
      ensures forall i :: 0 <= i < |logged| ==> logged[i] == Entry(isAccess(output[i]), output[i])
      ensures Now() == SendAll(old(Now()), capacity, LinesOf(pipe, output[..|logged|]))
    {
      ghost var first := Now();
      logged := [];
      var i := 0;
      while i < |output| && i < stopAfter
        invariant i <= |output| && i <= stopAfter && |logged| == i
        invariant forall j :: 0 <= j < i ==> logged[j] == Entry(isAccess(output[j]), output[j])
        invariant Now() == SendAll(first, capacity, LinesOf(pipe, output[..i]))
      {
        CaptureOne(pipe, output, i, first);
        logged := logged + [Entry(isAccess(output[i]), output[i])];
        i := i + 1;
      }
    }

    // One line of it.
    method CaptureOne(pipe: nat, output: seq<string>, i: nat, ghost first: Pump)
      requires InOrder(first, capacity) && i < |output|
      requires Now() == SendAll(first, capacity, LinesOf(pipe, output[..i]))
      modifies this
      ensures Now() == SendAll(first, capacity, LinesOf(pipe, output[..i + 1]))
    {
      SendAllMeans(first, capacity, LinesOf(pipe, output[..i]));
      SendOneMore(first, capacity, pipe, output, i);
      var _ := TrySend(Line(pipe, output[i]));
    }
  }

  lemma SendOneMore(p: Pump, capacity: nat, pipe: nat, output: seq<string>, i: nat)
    requires i < |output|
    ensures SendAll(p, capacity, LinesOf(pipe, output[..i + 1])) ==
            Send(SendAll(p, capacity, LinesOf(pipe, output[..i])), capacity, Line(pipe, output[i]))
  {
    var lines := LinesOf(pipe, output[..i + 1]);
    assert lines[..i] == LinesOf(pipe, output[..i]);
  }
}
