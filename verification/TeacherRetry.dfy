// The bisecting retry of app/services/cloud_teacher_providers.py.  What the
// transport does at the n-th attempt is an arbitrary function of n.
module TeacherRetry {
  import opened Prelude

  datatype Window = Window(start: Option<real>, end: Option<real>, center: Option<real>)

  datatype Packet = Packet(id: string, window: Window)

  datatype Decision = AssertCompleted | RefuteCompleted | Unclear

  // decision is None when the teacher's word is none of the allowed ones.
  datatype Entry = Entry(decision: Option<Decision>, suggested: Option<real>, rationale: string)

  datatype Response = TransportFailed | Unparseable | Parsed(entries: map<string, Entry>)

  datatype Label = Label(packetId: string, decision: Decision, suggested: Option<real>, answered: bool)

  datatype Attempt = Attempt(batch: seq<Packet>, response: Response)

  // history records the attempts; no step reads it.
  datatype Usage = Usage(
    invocations: nat,
    labeled: nat,
    parseFailures: nat,
    transportErrors: nat,
    retries: nat,
    history: seq<Attempt>)

  const UNUSED := Usage(0, 0, 0, 0, 0, [])

  function Attempts(u: Usage): nat {
    u.invocations + u.transportErrors
  }

  function Clamped(time: real, w: Window): real {
    var late := if w.start.Some? && time < w.start.value then w.start.value else time;
    if w.end.Some? && late > w.end.value then w.end.value else late
  }

  // The nearest integer, the even one of two.
  function RoundHalfEven(x: real): int {
    var below := x.Floor;
    var rest := x - below as real;
    if rest < 0.5 || (rest == 0.5 && below % 2 == 0) then below else below + 1
  }

  // Rounded to three decimals.
  function Rounded(x: real): real {
    RoundHalfEven(x * 1000.0) as real / 1000.0
  }

  function Suggestion(e: Entry, w: Window): Option<real> {
    if e.suggested.Some? then Some(Rounded(Clamped(e.suggested.value, w)))
    else if w.center.Some? then Some(Rounded(w.center.value))
    else None
  }

  function FromEntry(p: Packet, e: Entry): Label {
    var decision := e.decision.GetOr(Unclear);
    Label(p.id, decision, if decision == AssertCompleted then Suggestion(e, p.window) else None, true)
  }

  function UnclearLabel(p: Packet): Label {
    Label(p.id, Unclear, None, false)
  }

  function LabelOf(p: Packet, entries: map<string, Entry>): Label {
    if p.id in entries then FromEntry(p, entries[p.id]) else UnclearLabel(p)
  }

  function LabelsOf(batch: seq<Packet>, entries: map<string, Entry>): seq<Label> {
    seq(|batch|, i requires 0 <= i < |batch| => LabelOf(batch[i], entries))
  }

  function Tried(u: Usage, batch: seq<Packet>, r: Response): Usage {
    var u1 := u.(history := u.history + [Attempt(batch, r)]);
    match r
    case TransportFailed => u1.(transportErrors := u.transportErrors + 1)
    case Unparseable => u1.(invocations := u.invocations + 1, parseFailures := u.parseFailures + 1)
    case Parsed(_) => u1.(invocations := u.invocations + 1)
  }

  predicate Answers(r: Response, batch: seq<Packet>) {
    r.Parsed? && forall i :: 0 <= i < |batch| ==> batch[i].id in r.entries
  }

  function Entries(r: Response): map<string, Entry> {
    if r.Parsed? then r.entries else map[]
  }

  datatype Outcome = Outcome(labels: seq<Label>, usage: Usage)

  function Retried(respond: nat -> Response, u: Usage, batch: seq<Packet>): Usage {
    var u1 := Tried(u, batch, respond(Attempts(u)));
    u1.(retries := u1.retries + 1)
  }

  predicate Splits(respond: nat -> Response, u: Usage, batch: seq<Packet>) {
    !Answers(respond(Attempts(u)), batch) && |batch| > 1
  }

  function Left(respond: nat -> Response, u: Usage, batch: seq<Packet>): Outcome
    requires Splits(respond, u, batch)
    decreases |batch|, 0
  {
    Verify(respond, Retried(respond, u, batch), batch[..|batch| / 2])
  }

  function Right(respond: nat -> Response, u: Usage, batch: seq<Packet>): Outcome
    requires Splits(respond, u, batch)
    decreases |batch|, 1
  {
    Verify(respond, Left(respond, u, batch).usage, batch[|batch| / 2..])
  }

  function Verify(respond: nat -> Response, u: Usage, batch: seq<Packet>): Outcome
    decreases |batch|, 2
  {
    if Splits(respond, u, batch) then
      Outcome(Left(respond, u, batch).labels + Right(respond, u, batch).labels, Right(respond, u, batch).usage)
    else
      var r := respond(Attempts(u));
      var u1 := Tried(u, batch, r);
      Outcome(LabelsOf(batch, Entries(r)), u1.(labeled := u1.labeled + |batch|))
  }

  function Stride(batchSize: int): nat {
    if batchSize >= 1 then batchSize else 1
  }

  function VerifyAll(respond: nat -> Response, u: Usage, packets: seq<Packet>, size: nat): Outcome
    requires size >= 1
    decreases |packets|
  {
    if packets == [] then Outcome([], u)
    else
      var n := if |packets| < size then |packets| else size;
      var first := Verify(respond, u, packets[..n]);
      var rest := VerifyAll(respond, first.usage, packets[n..], size);
      Outcome(first.labels + rest.labels, rest.usage)
  }

  // How many slices of size packets cover n.
  function Batches(n: nat, size: nat): nat
    requires size >= 1
  {
    if n == 0 then 0 else 1 + Batches(if n < size then 0 else n - size, size)
  }

  // ----- the provider as the source has it -----

  class CliTeacherProvider {
    const respond: nat -> Response
    const batchSize: int
    var invocations: nat
    var packetsLabeled: nat
    var parseFailures: nat
    var transportErrors: nat
    var retries: nat

    ghost var history: seq<Attempt>

    ghost function Used(): Usage
      reads this
    {
      Usage(invocations, packetsLabeled, parseFailures, transportErrors, retries, history)
    }

    constructor (respond: nat -> Response, batchSize: int)
      ensures this.respond == respond && this.batchSize == batchSize && Used() == UNUSED
    {
      this.respond, this.batchSize := respond, batchSize;
      invocations, packetsLabeled, parseFailures, transportErrors, retries := 0, 0, 0, 0, 0;
      history := [];
    }

    method VerifyPackets(packets: seq<Packet>) returns (labels: seq<Label>)
      modifies this
      ensures Outcome(labels, Used()) == VerifyAll(respond, old(Used()), packets, Stride(batchSize))
    {
      hide Verify, Used;
      var size := if batchSize >= 1 then batchSize else 1;
      labels := [];
      var start := 0;
      while start < |packets|
        invariant 0 <= start <= |packets|
        invariant Continues(respond, old(Used()), packets, size, labels, Used(), packets[start..])
      {
        var end := if start + size <= |packets| then start + size else |packets|;
        assert packets[start..][..end - start] == packets[start..end];
        assert packets[start..][end - start..] == packets[end..];
        ContinuesBy(respond, old(Used()), packets, size, labels, Used(), packets[start..]);
        var more := VerifyBatch(packets[start..end]);
        labels := labels + more;
        start := end;
      }
      assert VerifyAll(respond, Used(), packets[start..], size) == Outcome([], Used());
    }

    // One request to the teacher.
    method Try(batch: seq<Packet>) returns (response: Response)
      modifies this`invocations, this`transportErrors, this`parseFailures, this`history
      ensures response == respond(Attempts(old(Used()))) && Used() == Tried(old(Used()), batch, response)
    {
      response := respond(invocations + transportErrors);
      history := history + [Attempt(batch, response)];
      match response {
        case TransportFailed =>
          transportErrors := transportErrors + 1;
        case Unparseable =>
          invocations := invocations + 1;
          parseFailures := parseFailures + 1;
        case Parsed(_) =>
          invocations := invocations + 1;
      }
    }

    method LabelAll(batch: seq<Packet>, parsed: map<string, Entry>) returns (labels: seq<Label>)
      modifies this`packetsLabeled
      ensures labels == LabelsOf(batch, parsed)
      ensures Used() == old(Used()).(labeled := old(Used()).labeled + |batch|)
    {
      labels := [];
      for i := 0 to |batch|
        invariant labels == LabelsOf(batch[..i], parsed)
        invariant packetsLabeled == old(packetsLabeled) + i
      {
        labels := labels + [LabelOf(batch[i], parsed)];
        packetsLabeled := packetsLabeled + 1;
      }
      assert batch[..|batch|] == batch;
    }

    method VerifyBatch(batch: seq<Packet>) returns (labels: seq<Label>)
      modifies this
      ensures Outcome(labels, Used()) == Verify(respond, old(Used()), batch)
      decreases |batch|
    {
      hide LabelsOf, Tried;
      var response := Try(batch);
      var parsed: map<string, Entry> := if response.Parsed? then response.entries else map[];
      var failed := !response.Parsed? || exists i :: 0 <= i < |batch| && batch[i].id !in parsed;
      if failed && |batch| > 1 {
        retries := retries + 1;
        var mid := |batch| / 2;
        var left := VerifyBatch(batch[..mid]);
        var right := VerifyBatch(batch[mid..]);
        return left + right;
      }
      labels := LabelAll(batch, parsed);
    }
  }

  // What is left to verify completes labels to the whole answer.
  ghost predicate Continues(respond: nat -> Response, u: Usage, packets: seq<Packet>, size: nat,
                            labels: seq<Label>, now: Usage, left: seq<Packet>)
    requires size >= 1
  {
    var rest := VerifyAll(respond, now, left, size);
    Outcome(labels + rest.labels, rest.usage) == VerifyAll(respond, u, packets, size)
  }

  lemma ContinuesBy(respond: nat -> Response, u: Usage, packets: seq<Packet>, size: nat,
                    labels: seq<Label>, now: Usage, left: seq<Packet>)
    requires size >= 1 && left != [] && Continues(respond, u, packets, size, labels, now, left)
    ensures var n := if |left| < size then |left| else size;
      var first := Verify(respond, now, left[..n]);
      Continues(respond, u, packets, size, labels + first.labels, first.usage, left[n..])
  {
    hide Verify;
    var n := if |left| < size then |left| else size;
    var first := Verify(respond, now, left[..n]);
    var rest := VerifyAll(respond, first.usage, left[n..], size);
    assert labels + (first.labels + rest.labels) == labels + first.labels + rest.labels;
  }

  // ----- one label per packet, in order -----

  lemma {:induction false} LabelsInOrder(respond: nat -> Response, u: Usage, batch: seq<Packet>)
    ensures var labels := Verify(respond, u, batch).labels;
      |labels| == |batch| && forall i :: 0 <= i < |batch| ==> labels[i].packetId == batch[i].id
    decreases |batch|
  {
    hide Tried, Answers, Retried;
    if Splits(respond, u, batch) {
      LabelsInOrder(respond, Retried(respond, u, batch), batch[..|batch| / 2]);
      LabelsInOrder(respond, Left(respond, u, batch).usage, batch[|batch| / 2..]);
    }
  }

  lemma {:induction false} AllLabelsInOrder(respond: nat -> Response, u: Usage, packets: seq<Packet>, size: nat)
    requires size >= 1
    ensures var labels := VerifyAll(respond, u, packets, size).labels;
      |labels| == |packets| && forall i :: 0 <= i < |packets| ==> labels[i].packetId == packets[i].id
    decreases |packets|
  {
    hide Verify;
    if packets != [] {
      var n := if |packets| < size then |packets| else size;
      LabelsInOrder(respond, u, packets[..n]);
      AllLabelsInOrder(respond, Verify(respond, u, packets[..n]).usage, packets[n..], size);
    }
  }

  // ----- the exact number of attempts -----

  // A batch of n packets costs one attempt and two more per retry, at most
  // n - 1 retries, and labels n packets.
  ghost predicate Costs(u: Usage, u': Usage, batches: nat, packets: nat) {
    && Attempts(u') - Attempts(u) == 2 * (u'.retries - u.retries) + batches
    && 0 <= u'.retries - u.retries
    && u'.retries - u.retries + batches <= packets
    && u'.labeled - u.labeled == packets
  }

  lemma TriedCosts(u: Usage, batch: seq<Packet>, r: Response)
    ensures var u' := Tried(u, batch, r);
      Attempts(u') == Attempts(u) + 1 && u'.retries == u.retries && u'.labeled == u.labeled
  {
  }

  lemma {:induction false} BatchCosts(respond: nat -> Response, u: Usage, batch: seq<Packet>)
    requires batch != []
    ensures Costs(u, Verify(respond, u, batch).usage, 1, |batch|)
    decreases |batch|
  {
    hide Answers, Tried;
    TriedCosts(u, batch, respond(Attempts(u)));
    if Splits(respond, u, batch) {
      BatchCosts(respond, Retried(respond, u, batch), batch[..|batch| / 2]);
      BatchCosts(respond, Left(respond, u, batch).usage, batch[|batch| / 2..]);
    }
  }

  // The number of batches is n / size, rounded up.
  lemma {:induction false} BatchesRoundUp(n: nat, size: nat)
    requires size >= 1
    ensures n <= Batches(n, size) * size < n + size
  {
    if n >= size {
      BatchesRoundUp(n - size, size);
    } else if n > 0 {
      assert Batches(0, size) == 0;
    }
  }

  // invocations + transport errors = 2 * retries + number of batches, whatever
  // fails; hence at most 2n - 1 attempts for a batch of n.
  lemma {:induction false} AttemptsAreExact(respond: nat -> Response, u: Usage, packets: seq<Packet>, size: nat)
    requires size >= 1
    ensures Costs(u, VerifyAll(respond, u, packets, size).usage, Batches(|packets|, size), |packets|)
    ensures Attempts(VerifyAll(respond, u, packets, size).usage) - Attempts(u)
            <= 2 * |packets| - Batches(|packets|, size)
    ensures |packets| <= Batches(|packets|, size) * size < |packets| + size
    decreases |packets|
  {
    hide Verify;
    BatchesRoundUp(|packets|, size);
    if packets != [] {
      var n := if |packets| < size then |packets| else size;
      BatchCosts(respond, u, packets[..n]);
      AttemptsAreExact(respond, Verify(respond, u, packets[..n]).usage, packets[n..], size);
    }
  }

  // ----- what a label says -----

  function Thousandths(k: int): real {
    k as real / 1000.0
  }

  // r is x to three decimals, the even one of two.
  ghost predicate ToMillis(r: real, x: real) {
    exists k: int ::
      r == Thousandths(k) && Abs(r - x) <= 0.0005 && (Abs(r - x) == 0.0005 ==> k % 2 == 0)
  }

  predicate Inverted(w: Window) {
    w.start.Some? && w.end.Some? && w.start.value > w.end.value
  }

  predicate Inside(time: real, w: Window) {
    (w.start.Some? ==> w.start.value <= time) && (w.end.Some? ==> time <= w.end.value)
  }

  // c is the time of the window that is nearest to time; the end of a window
  // that ends before it starts.
  ghost predicate NearestInside(c: real, time: real, w: Window) {
    if Inverted(w) then w.end == Some(c)
    else Inside(c, w) && forall d :: Inside(d, w) ==> Abs(c - time) <= Abs(d - time)
  }

  // The label says what the teacher's entry says: its decision, and for a
  // completed event the time it suggests, or else the center of the window.
  ghost predicate Says(p: Packet, e: Entry, l: Label) {
    && l.packetId == p.id
    && l.decision == (if e.decision.Some? then e.decision.value else Unclear)
    && (l.suggested.Some? <==>
          l.decision == AssertCompleted && (e.suggested.Some? || p.window.center.Some?))
    && (l.suggested.Some? ==>
          if e.suggested.Some? then
            exists c :: NearestInside(c, e.suggested.value, p.window) && ToMillis(l.suggested.value, c)
          else ToMillis(l.suggested.value, p.window.center.value))
  }

  lemma RoundedToMillis(x: real)
    ensures ToMillis(Rounded(x), x)
  {
    var k := RoundHalfEven(x * 1000.0);
    assert Rounded(x) == Thousandths(k);
  }

  lemma ClampedIsNearest(time: real, w: Window)
    ensures NearestInside(Clamped(time, w), time, w)
  {
  }

  lemma FromEntrySays(p: Packet, e: Entry)
    ensures Says(p, e, FromEntry(p, e))
  {
    hide ToMillis, NearestInside, Rounded, Clamped;
    if e.suggested.Some? {
      ClampedIsNearest(e.suggested.value, p.window);
      RoundedToMillis(Clamped(e.suggested.value, p.window));
    } else if p.window.center.Some? {
      RoundedToMillis(p.window.center.value);
    }
  }

  // ----- failures are isolated -----

  // The label says what the teacher answered to a request that included the
  // packet, or the packet was asked about on its own and got no answer.
  ghost predicate Supported(tried: seq<Attempt>, p: Packet, l: Label) {
    exists k :: 0 <= k < |tried| && Supports(tried[k], p, l)
  }

  ghost predicate Supports(a: Attempt, p: Packet, l: Label) {
    if l.answered then
      p in a.batch && a.response.Parsed? && p.id in a.response.entries && Says(p, a.response.entries[p.id], l)
    else
      && a.batch == [p] && (a.response.Parsed? ==> p.id !in a.response.entries)
      && l.packetId == p.id && l.decision == Unclear && l.suggested == None
  }

  lemma SupportStays(tried: seq<Attempt>, more: seq<Attempt>, p: Packet, l: Label)
    requires Supported(tried, p, l) && tried <= more
    ensures Supported(more, p, l)
  {
    var k :| 0 <= k < |tried| && Supports(tried[k], p, l);
    assert more[k] == tried[k];
  }

  lemma TriedGrows(u: Usage, batch: seq<Packet>, r: Response)
    ensures u.history <= Tried(u, batch, r).history
  {
  }

  lemma {:induction false} HistoryGrows(respond: nat -> Response, u: Usage, batch: seq<Packet>)
    ensures u.history <= Verify(respond, u, batch).usage.history
    decreases |batch|
  {
    hide Answers, Tried;
    TriedGrows(u, batch, respond(Attempts(u)));
    if Splits(respond, u, batch) {
      HistoryGrows(respond, Retried(respond, u, batch), batch[..|batch| / 2]);
      HistoryGrows(respond, Left(respond, u, batch).usage, batch[|batch| / 2..]);
    }
  }

  lemma LeafSupports(u: Usage, batch: seq<Packet>, r: Response, i: nat)
    requires i < |batch| && (Answers(r, batch) || |batch| == 1)
    ensures Supported(Tried(u, batch, r).history, batch[i], LabelOf(batch[i], Entries(r)))
  {
    hide Says;
    var tried := Tried(u, batch, r).history;
    assert tried[|tried| - 1] == Attempt(batch, r);
    if batch[i].id in Entries(r) {
      FromEntrySays(batch[i], Entries(r)[batch[i].id]);
    }
    if !Answers(r, batch) {
      assert batch == [batch[i]];
    }
    assert Supports(tried[|tried| - 1], batch[i], LabelOf(batch[i], Entries(r)));
  }

  lemma LeftThenRight(respond: nat -> Response, u: Usage, batch: seq<Packet>, i: nat)
    requires Splits(respond, u, batch) && i < |batch|
    ensures var labels := Verify(respond, u, batch).labels;
      var left, right := Left(respond, u, batch), Right(respond, u, batch);
      var mid := |batch| / 2;
      && |left.labels| == mid && |right.labels| == |batch| - mid && |labels| == |batch|
      && labels[i] == (if i < mid then left.labels[i] else right.labels[i - mid])
      && Verify(respond, u, batch).usage == right.usage
      && left.usage.history <= right.usage.history
  {
    hide Tried, Answers, Retried;
    LabelsInOrder(respond, Retried(respond, u, batch), batch[..|batch| / 2]);
    LabelsInOrder(respond, Left(respond, u, batch).usage, batch[|batch| / 2..]);
    HistoryGrows(respond, Left(respond, u, batch).usage, batch[|batch| / 2..]);
    hide LabelsOf;
  }

  // One bad packet never costs its neighbours their answers.
  lemma {:induction false} FailuresAreIsolated(respond: nat -> Response, u: Usage, batch: seq<Packet>, i: nat)
    requires i < |batch|
    ensures i < |Verify(respond, u, batch).labels|
    ensures Supported(Verify(respond, u, batch).usage.history, batch[i], Verify(respond, u, batch).labels[i])
    decreases |batch|
  {
    hide Answers, Supported, Tried, Retried;
    if Splits(respond, u, batch) {
      LeftThenRight(respond, u, batch, i);
      var mid := |batch| / 2;
      if i < mid {
        FailuresAreIsolated(respond, Retried(respond, u, batch), batch[..mid], i);
        hide Verify;
        SupportStays(Left(respond, u, batch).usage.history, Right(respond, u, batch).usage.history,
                     batch[i], Left(respond, u, batch).labels[i]);
      } else {
        FailuresAreIsolated(respond, Left(respond, u, batch).usage, batch[mid..], i - mid);
        hide Verify;
      }
    } else {
      LeafSupports(u, batch, respond(Attempts(u)), i);
    }
  }

  lemma {:induction false} AllHistoryGrows(respond: nat -> Response, u: Usage, packets: seq<Packet>, size: nat)
    requires size >= 1
    ensures u.history <= VerifyAll(respond, u, packets, size).usage.history
    decreases |packets|
  {
    hide Verify;
    if packets != [] {
      var n := if |packets| < size then |packets| else size;
      HistoryGrows(respond, u, packets[..n]);
      AllHistoryGrows(respond, Verify(respond, u, packets[..n]).usage, packets[n..], size);
    }
  }

  // The same for all packets, however they are cut into batches.
  lemma {:induction false} AllFailuresAreIsolated(respond: nat -> Response, u: Usage, packets: seq<Packet>, size: nat,
                                                  i: nat)
    requires size >= 1 && i < |packets|
    ensures i < |VerifyAll(respond, u, packets, size).labels|
    ensures Supported(VerifyAll(respond, u, packets, size).usage.history, packets[i],
                      VerifyAll(respond, u, packets, size).labels[i])
    decreases |packets|
  {
    hide Supported;
    var n := if |packets| < size then |packets| else size;
    var first := Verify(respond, u, packets[..n]);
    LabelsInOrder(respond, u, packets[..n]);
    AllLabelsInOrder(respond, first.usage, packets[n..], size);
    if i < n {
      FailuresAreIsolated(respond, u, packets[..n], i);
      hide Verify;
      AllHistoryGrows(respond, first.usage, packets[n..], size);
      var rest := VerifyAll(respond, first.usage, packets[n..], size);
      SupportStays(first.usage.history, rest.usage.history, packets[i], first.labels[i]);
    } else {
      hide Verify;
      AllFailuresAreIsolated(respond, first.usage, packets[n..], size, i - n);
    }
  }

  // ----- what is asked again -----

  // An attempt on several packets that left one of them without an answer.
  predicate LeftOpen(a: Attempt) {
    |a.batch| > 1 && !(a.response.Parsed? && forall p :: p in a.batch ==> p.id in a.response.entries)
  }

  // b is the first or the second half of an earlier attempt that left a packet open.
  ghost predicate Halves(tried: seq<Attempt>, from: nat, k: nat) {
    exists j :: from <= j < k < |tried| && LeftOpen(tried[j])
      && (tried[k].batch == tried[j].batch[..|tried[j].batch| / 2]
          || tried[k].batch == tried[j].batch[|tried[j].batch| / 2..])
  }

  function NumberOf(tried: seq<Attempt>, wanted: Attempt -> bool): nat {
    if tried == [] then 0
    else NumberOf(tried[..|tried| - 1], wanted) + if wanted(tried[|tried| - 1]) then 1 else 0
  }

  // The counters say what the attempts say, and attempt n got the n-th response.
  ghost predicate Tallied(respond: nat -> Response, u: Usage) {
    && u.transportErrors == NumberOf(u.history, (a: Attempt) => a.response.TransportFailed?)
    && u.parseFailures == NumberOf(u.history, (a: Attempt) => a.response.Unparseable?)
    && u.invocations == |u.history| - u.transportErrors
    && u.retries == NumberOf(u.history, LeftOpen)
    && (forall k: nat :: k < |u.history| ==> u.history[k].response == respond(k))
  }

  lemma OpenIsUnanswered(a: Attempt)
    ensures LeftOpen(a) <==> |a.batch| > 1 && !Answers(a.response, a.batch)
  {
    if !Answers(a.response, a.batch) && a.response.Parsed? {
      var i :| 0 <= i < |a.batch| && a.batch[i].id !in a.response.entries;
      assert a.batch[i] in a.batch;
    }
  }

  lemma TriedTallies(respond: nat -> Response, u: Usage, batch: seq<Packet>)
    requires Tallied(respond, u)
    ensures var r := respond(Attempts(u));
      var u1 := Tried(u, batch, r);
      Tallied(respond, if Splits(respond, u, batch) then u1.(retries := u1.retries + 1)
                       else u1.(labeled := u1.labeled + |batch|))
  {
    var r := respond(Attempts(u));
    var tried := Tried(u, batch, r).history;
    assert tried[..|tried| - 1] == u.history;
    OpenIsUnanswered(Attempt(batch, r));
  }

  lemma {:induction false} BatchTallies(respond: nat -> Response, u: Usage, batch: seq<Packet>)
    requires Tallied(respond, u)
    ensures Tallied(respond, Verify(respond, u, batch).usage)
    decreases |batch|
  {
    hide Tallied, Tried, Answers;
    TriedTallies(respond, u, batch);
    if Splits(respond, u, batch) {
      BatchTallies(respond, Retried(respond, u, batch), batch[..|batch| / 2]);
      BatchTallies(respond, Left(respond, u, batch).usage, batch[|batch| / 2..]);
    }
  }

  lemma {:induction false} AllTallies(respond: nat -> Response, u: Usage, packets: seq<Packet>, size: nat)
    requires size >= 1 && Tallied(respond, u)
    ensures Tallied(respond, VerifyAll(respond, u, packets, size).usage)
    decreases |packets|
  {
    hide Tallied, Verify;
    if packets != [] {
      var n := if |packets| < size then |packets| else size;
      BatchTallies(respond, u, packets[..n]);
      AllTallies(respond, Verify(respond, u, packets[..n]).usage, packets[n..], size);
    }
  }

  // The counters of a provider are those of its recorded attempts, and a retry is
  // counted exactly for an attempt on several packets that left one of them open.
  lemma CountersAreAttempts(respond: nat -> Response, packets: seq<Packet>, size: nat)
    requires size >= 1
    ensures Tallied(respond, VerifyAll(respond, UNUSED, packets, size).usage)
  {
    hide VerifyAll;
    AllTallies(respond, UNUSED, packets, size);
  }

  // The first new attempt is on the whole batch, every further one on a half of
  // one that left a packet open.
  ghost predicate Bisects(u: Usage, u': Usage, batch: seq<Packet>) {
    && u.history <= u'.history && |u.history| < |u'.history|
    && u'.history[|u.history|].batch == batch
    && (forall k :: |u.history| < k < |u'.history| ==> Halves(u'.history, |u.history|, k))
  }

  lemma HalvesStay(tried: seq<Attempt>, more: seq<Attempt>, from: nat, lower: nat, k: nat)
    requires Halves(tried, from, k) && tried <= more && lower <= from
    ensures Halves(more, lower, k)
  {
    var j :| from <= j < k < |tried| && LeftOpen(tried[j])
      && (tried[k].batch == tried[j].batch[..|tried[j].batch| / 2]
          || tried[k].batch == tried[j].batch[|tried[j].batch| / 2..]);
    assert more[j] == tried[j] && more[k] == tried[k];
  }

  lemma HalfBisects(u: Usage, first: nat, mid: Usage, u': Usage, part: seq<Packet>)
    requires Bisects(mid, u', part) && first < |mid.history| && LeftOpen(mid.history[first])
    requires var whole := mid.history[first].batch; part == whole[..|whole| / 2] || part == whole[|whole| / 2..]
    ensures forall k :: |mid.history| <= k < |u'.history| ==> Halves(u'.history, first, k)
  {
    hide LeftOpen;
    forall k | |mid.history| <= k < |u'.history|
      ensures Halves(u'.history, first, k)
    {
      if k == |mid.history| {
        assert u'.history[first] == mid.history[first];
      } else {
        HalvesStay(u'.history, u'.history, |mid.history|, first, k);
      }
    }
  }

  lemma {:induction false} BatchIsBisected(respond: nat -> Response, u: Usage, batch: seq<Packet>)
    ensures Bisects(u, Verify(respond, u, batch).usage, batch)
    decreases |batch|
  {
    hide Halves;
    var r := respond(Attempts(u));
    var tried := Tried(u, batch, r).history;
    assert tried[..|u.history|] == u.history && tried[|u.history|] == Attempt(batch, r);
    if Splits(respond, u, batch) {
      var u1 := Retried(respond, u, batch);
      var u2 := Left(respond, u, batch).usage;
      var mid := |batch| / 2;
      BatchIsBisected(respond, u1, batch[..mid]);
      BatchIsBisected(respond, u2, batch[mid..]);
      hide Verify;
      OpenIsUnanswered(Attempt(batch, r));
      HalfBisects(u, |u.history|, u1, u2, batch[..mid]);
      assert u2.history[|u.history|] == Attempt(batch, r);
      var u3 := Right(respond, u, batch).usage;
      HalfBisects(u, |u.history|, u2, u3, batch[mid..]);
      forall k | |u.history| < k < |u2.history|
        ensures Halves(u3.history, |u.history|, k)
      {
        HalvesStay(u2.history, u3.history, |u.history|, |u.history|, k);
      }
    }
  }

  // Rounding keeps the order and moves a time by at most half a millisecond.
  lemma RoundedKeepsOrder(x: real, y: real)
    ensures x <= y ==> Rounded(x) <= Rounded(y)
    ensures Abs(Rounded(x) - x) <= 0.0005
  {
    if x <= y {
      assert (x * 1000.0).Floor <= (y * 1000.0).Floor;
      assert RoundHalfEven(x * 1000.0) <= RoundHalfEven(y * 1000.0);
    }
  }

  // A suggested time stays between the rounded bounds the window has, and one
  // that was between the bounds is only rounded.
  lemma SuggestionsStayInWindow(p: Packet, e: Entry)
    requires e.suggested.Some? && FromEntry(p, e).suggested.Some?
    ensures var time := FromEntry(p, e).suggested.value;
      && (p.window.end.Some? ==> time <= Rounded(p.window.end.value))
      && (p.window.start.Some? && !Inverted(p.window) ==> Rounded(p.window.start.value) <= time)
      && (Inside(e.suggested.value, p.window) ==> time == Rounded(e.suggested.value))
  {
    hide Rounded;
    var clamped := Clamped(e.suggested.value, p.window);
    if p.window.start.Some? && !Inverted(p.window) {
      RoundedKeepsOrder(p.window.start.value, clamped);
    }
    if p.window.end.Some? {
      RoundedKeepsOrder(clamped, p.window.end.value);
    }
  }
}
