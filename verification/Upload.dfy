/** The upload pipe of backend/handlers/file.go: a producer that refills one
    buffer and offers it to a pipe, a consumer that hashes and saves what it
    takes from there, and the progress entry they share. */
module Upload {
  import opened Basics

  const BUFFER: nat := 32 * 1024

  /** `http.MaxBytesReader` delivers no more of a body than this. */
  const LIMIT: nat := 5 * 1024 * 1024 * 1024

  // -------------------------------------------------------------- states

  /** What a read returns beside its bytes: no error, the end of the part, or an
      error that comes before it. The copying loop does not tell the last two
      apart. An error after the last byte counts as the end: nothing is missing. */
  datatype Outcome = More | End | Broken

  /** The copying goroutine: about to read, blocked in the pipe with
      `buf[from..to]` still to be taken, or done with the pipe closed. */
  datatype Producer = Reading | Offering(from: nat, to: nat) | Closed

  /** `Save` reading through the tee: a slice taken from the pipe is hashed,
      then stored; at the end of the stream `Save` has returned, or it has
      failed before, with some of what it had taken not stored. */
  datatype Consumer =
    | Waiting
    | Hashing(slice: seq<byte>)
    | Storing(slice: seq<byte>)
    | Returned(size: nat)
    | Recorded(size: nat)
    | Failed(lost: seq<byte>)

  datatype Progress = Progress(bytesDone: int, percentage: int, completed: bool)

  /** `part` is the whole content of the part; `received` remembers the bytes
      read from it so far, `last` what the last read returned. */
  datatype State = State(total: int, part: seq<byte>, buf: seq<byte>, producer: Producer, consumer: Consumer,
                         bytesRead: int, hashed: seq<byte>, saved: seq<byte>, progress: Progress,
                         received: seq<byte>, last: Outcome)

  function Start(total: int, part: seq<byte>, buf: seq<byte>): State {
    State(total, part, buf, Reading, Waiting, 0, [], [], Progress(0, 0, false), [], More)
  }

  // --------------------------------------------------------------- steps

  /** `int(bytesRead * 100 / contentLength)` on int64. */
  function Percent(bytesRead: int, total: int): int
    requires total > 0
  {
    Wrap(bytesRead * 100) / total
  }

  datatype Action =
    | Read(chunk: seq<byte>, outcome: Outcome) // the part delivers its next bytes, an error, or both
    | Take(count: nat)                         // the pipe copies a slice out of the buffer
    | Hash
    | Store
    | Report                                   // the pipe took everything: update the progress
    | Return                                   // the stream ended: `Save` returns
    | Complete
    | Fail(stored: nat)                        // `Save` gives up, having stored some of its slice

  /** What the part can deliver: its next bytes, as many as fit the buffer, the
      declared length and the limit, and the end where it ends. */
  predicate Deliverable(s: State, chunk: seq<byte>, outcome: Outcome) {
    && |chunk| <= |s.buf| && |s.received| + |chunk| <= s.total && |s.received| + |chunk| <= LIMIT
    && s.received + chunk <= s.part
    && (outcome == End ==> s.received + chunk == s.part)
    && (outcome == Broken ==> s.received + chunk != s.part)
  }

  /** How much of its slice a failing save may have stored. */
  function Storable(c: Consumer): nat {
    if c.Storing? then |c.slice| else 0
  }

  predicate Enabled(s: State, a: Action) {
    match a
    case Read(chunk, outcome) => s.producer.Reading? && Deliverable(s, chunk, outcome)
    case Take(count) =>
      && s.consumer.Waiting? && s.producer.Offering? && s.producer.to <= |s.buf|
      && 0 < count <= s.producer.to - s.producer.from
    case Hash => s.consumer.Hashing?
    case Store => s.consumer.Storing?
    case Report => s.producer.Offering? && s.producer.from == s.producer.to && s.total > 0
    case Return => s.consumer.Waiting? && s.producer.Closed?
    case Complete => s.consumer.Returned?
    case Fail(stored) =>
      (s.consumer.Waiting? || s.consumer.Hashing? || s.consumer.Storing?) && stored <= Storable(s.consumer)
  }

  function Step(s: State, a: Action): State {
    if !Enabled(s, a) then s
    else
      match a
      case Read(chunk, outcome) =>
        s.(buf := chunk + s.buf[|chunk|..], bytesRead := s.bytesRead + |chunk|,
           received := s.received + chunk, last := outcome,
           producer := if |chunk| > 0 then Offering(0, |chunk|) else if outcome != More then Closed else Reading)
      case Take(count) =>
        var from := s.producer.from;
        s.(consumer := Hashing(s.buf[from..from + count]), producer := s.producer.(from := from + count))
      case Hash => s.(hashed := s.hashed + s.consumer.slice, consumer := Storing(s.consumer.slice))
      case Store => s.(saved := s.saved + s.consumer.slice, consumer := Waiting)
      case Report =>
        s.(progress := s.progress.(bytesDone := s.bytesRead, percentage := Percent(s.bytesRead, s.total)),
           producer := if s.last != More then Closed else Reading)
      case Return => s.(consumer := Returned(|s.saved|))
      case Complete =>
        s.(progress := s.progress.(percentage := 100, completed := true), consumer := Recorded(s.consumer.size))
      case Fail(stored) => s.(saved := s.saved + InHand(s)[..stored], consumer := Failed(InHand(s)[stored..]))
  }

  function Run(s: State, acts: seq<Action>): State {
    if acts == [] then s else Step(Run(s, acts[..|acts| - 1]), acts[|acts| - 1])
  }

  lemma RunOneMore(s: State, acts: seq<Action>, a: Action)
    ensures Run(s, acts + [a]) == Step(Run(s, acts), a)
  {
    hide Step;
    assert (acts + [a])[..|acts + [a]| - 1] == acts;
  }

  // ----------------------------------------------------------- arithmetic

  /** The product is exact for every byte count short of 2^63 / 100, which
      the limit on a body stays far below. */
  lemma PercentExactIff(bytesRead: nat)
    requires bytesRead < 0x8000_0000_0000_0000
    ensures Wrap(bytesRead * 100) == bytesRead * 100 <==> bytesRead <= 92_233_720_368_547_758
    ensures bytesRead <= LIMIT ==> Wrap(bytesRead * 100) == bytesRead * 100
  {
    WrapIsIdentityIff(bytesRead * 100);
  }

  lemma QuotientGrows(a: int, b: int, d: int)
    requires a <= b && d > 0
    ensures a / d <= b / d
  {
    var k := a / d - b / d;
    assert a == a / d * d + a % d && b == b / d * d + b % d;
    assert k * d == a / d * d - b / d * d;
    if k > 0 {
      AtLeastOnce(k, d);
    }
  }

  lemma PercentRange(fewer: nat, more: nat, total: int)
    requires total > 0 && fewer <= more <= total && more <= LIMIT
    ensures 0 <= Percent(fewer, total) <= Percent(more, total) <= 100
  {
    PercentExactIff(fewer);
    PercentExactIff(more);
    PercentBetween(fewer * 100, more * 100, total);
  }

  lemma PercentBetween(fewer: int, more: int, total: int)
    requires total > 0 && 0 <= fewer <= more <= 100 * total
    ensures 0 <= fewer / total <= more / total <= 100
  {
    QuotientAndRemainder(0, total, 0, 0);
    QuotientAndRemainder(100 * total, total, 100, 0);
    QuotientGrows(0, fewer, total);
    QuotientGrows(fewer, more, total);
    QuotientGrows(more, 100 * total, total);
  }

  // ----------------------------------------------------------- invariant

  /** The bytes still offered to the pipe. */
  function Offered(s: State): seq<byte> {
    var p := s.producer;
    if p.Offering? && p.from <= p.to <= |s.buf| then s.buf[p.from..p.to] else []
  }

  /** The bytes taken from the pipe and not stored. */
  function InHand(s: State): (r: seq<byte>)
    ensures |r| >= Storable(s.consumer)
  {
    match s.consumer
    case Hashing(slice) => slice
    case Storing(slice) => slice
    case Failed(lost) => lost
    case _ => []
  }

  /** Nothing is lost, doubled or reordered between the part and the store. */
  ghost predicate Conserved(s: State) {
    && s.received == s.saved + InHand(s) + Offered(s)
    && match s.consumer
       case Storing(slice) => s.hashed == s.saved + slice
       case Failed(lost) => s.hashed == s.saved || s.hashed == s.saved + lost
       case _ => s.hashed == s.saved
  }

  ghost predicate Accounted(s: State) {
    && s.total > 0 && s.bytesRead == |s.received| && |s.received| <= s.total && |s.received| <= LIMIT
    && 0 <= s.progress.bytesDone <= s.bytesRead
    && (!s.producer.Offering? ==> s.progress.bytesDone == s.bytesRead)
    && s.progress.completed == s.consumer.Recorded?
    && s.progress.percentage == (if s.progress.completed then 100 else Percent(s.progress.bytesDone, s.total))
  }

  ghost predicate Ordered(s: State) {
    && (s.producer.Offering? ==> s.producer.from <= s.producer.to <= |s.buf|)
    && (s.consumer.Returned? || s.consumer.Recorded? ==> s.producer.Closed? && s.consumer.size == |s.saved|)
    && (s.consumer.Hashing? || s.consumer.Storing? ==> s.consumer.slice != [])
    && (s.producer.Closed? ==> s.last != More) && (s.producer.Reading? ==> s.last == More)
    && s.received <= s.part && (s.last == End ==> s.received == s.part) && (s.last == Broken ==> s.received != s.part)
  }

  ghost predicate Sound(s: State) {
    Ordered(s) && Conserved(s) && Accounted(s)
  }

  lemma OrderedStep(s: State, a: Action)
    requires Ordered(s)
    ensures Ordered(Step(s, a))
  {
    hide Percent;
  }

  lemma ReadConserves(s: State, chunk: seq<byte>, outcome: Outcome)
    requires Ordered(s) && Conserved(s) && Enabled(s, Read(chunk, outcome))
    ensures Conserved(Step(s, Read(chunk, outcome)))
  {
    var s' := Step(s, Read(chunk, outcome));
    assert s'.buf[..|chunk|] == chunk;
    assert Offered(s) == [] && Offered(s') == chunk;
    assert s.received + chunk == s.saved + InHand(s) + chunk;
  }

  lemma TakeConserves(s: State, count: nat)
    requires Ordered(s) && Conserved(s) && Enabled(s, Take(count))
    ensures Conserved(Step(s, Take(count)))
  {
    var s' := Step(s, Take(count));
    var from, to := s.producer.from, s.producer.to;
    assert Offered(s) == s.buf[from..from + count] + s.buf[from + count..to] == InHand(s') + Offered(s');
    assert s.saved + [] + (InHand(s') + Offered(s')) == s.saved + InHand(s') + Offered(s');
  }

  lemma FailConserves(s: State, stored: nat)
    requires Ordered(s) && Conserved(s) && Enabled(s, Fail(stored))
    ensures Conserved(Step(s, Fail(stored)))
  {
    var s', hand := Step(s, Fail(stored)), InHand(s);
    assert hand == hand[..stored] + hand[stored..];
    assert s.saved + hand == s.saved + hand[..stored] + hand[stored..];
    assert s'.saved == s.saved + hand[..stored] && InHand(s') == hand[stored..] && Offered(s') == Offered(s);
    assert stored == 0 ==> s'.saved == s.saved;
  }

  lemma OthersConserve(s: State, a: Action)
    requires Ordered(s) && Conserved(s) && !a.Read? && !a.Take? && !a.Fail?
    ensures Conserved(Step(s, a))
  {
    hide Percent;
    var s' := Step(s, a);
    assert Offered(s') == Offered(s);
    assert a.Store? && Enabled(s, a) ==> s'.saved + InHand(s') == s.saved + InHand(s);
  }

  lemma ConservedStep(s: State, a: Action)
    requires Ordered(s) && Conserved(s)
    ensures Conserved(Step(s, a))
  {
    hide Conserved, Ordered, Enabled;
    if Enabled(s, a) {
      match a
      case Read(chunk, outcome) => ReadConserves(s, chunk, outcome);
      case Take(count) => TakeConserves(s, count);
      case Fail(stored) => FailConserves(s, stored);
      case _ => OthersConserve(s, a);
    }
  }

  lemma AccountedStep(s: State, a: Action)
    requires Ordered(s) && Accounted(s)
    ensures Accounted(Step(s, a)) && Step(s, a).total == s.total && Step(s, a).part == s.part
    ensures var p, p' := s.progress, Step(s, a).progress;
            && p.bytesDone <= p'.bytesDone && p.percentage <= p'.percentage && (p.completed ==> p'.completed)
            && 0 <= p'.percentage <= 100
  {
    hide Percent;
    PercentRange(s.progress.bytesDone, s.bytesRead, s.total);
  }

  lemma StartSound(total: int, part: seq<byte>, buf: seq<byte>)
    requires total > 0
    ensures Sound(Start(total, part, buf))
  {
  }

  lemma {:induction false} SoundRun(s: State, acts: seq<Action>)
    requires Sound(s)
    ensures Sound(Run(s, acts)) && Run(s, acts).total == s.total && Run(s, acts).part == s.part
  {
    hide Step, Ordered, Conserved, Accounted;
    if acts != [] {
      var before, a := Run(s, acts[..|acts| - 1]), acts[|acts| - 1];
      SoundRun(s, acts[..|acts| - 1]);
      OrderedStep(before, a);
      ConservedStep(before, a);
      AccountedStep(before, a);
    }
  }

  lemma RunSound(total: int, part: seq<byte>, buf: seq<byte>, acts: seq<Action>)
    requires total > 0
    ensures var s := Run(Start(total, part, buf), acts); Sound(s) && s.total == total && s.part == part
  {
    StartSound(total, part, buf);
    SoundRun(Start(total, part, buf), acts);
  }

  /** However the part is chunked and however the two sides interleave: when
      `Save` returns, the bytes saved and the bytes hashed are exactly the
      bytes read, in order, in spite of the one buffer used for all of them,
      and the size it returns is the final byte count of the progress. */
  lemma SavedIsReceived(total: int, part: seq<byte>, buf: seq<byte>, acts: seq<Action>)
    requires total > 0
    ensures var s := Run(Start(total, part, buf), acts);
            s.consumer.Returned? || s.consumer.Recorded? ==>
              && s.saved == s.hashed == s.received
              && s.consumer.size == |s.received| == s.progress.bytesDone
  {
    hide Run;
    RunSound(total, part, buf, acts);
  }

  /** A completed upload holds the whole part exactly when the last read was its
      end. */
  lemma CompletedIsWholeIff(total: int, part: seq<byte>, buf: seq<byte>, acts: seq<Action>)
    requires total > 0 && Run(Start(total, part, buf), acts).progress.completed
    ensures var s := Run(Start(total, part, buf), acts);
            s.saved == part <==> s.last == End
  {
    hide Run;
    RunSound(total, part, buf, acts);
  }

  /** A part that breaks off after its first byte is recorded as completed all
      the same, with that byte alone. */
  lemma BrokenIsCompleted(total: int, first: byte, second: byte, buf: seq<byte>) returns (acts: seq<Action>)
    requires total >= 2 && |buf| > 0
    ensures var s := Run(Start(total, [first, second], buf), acts);
            s.progress.completed && s.progress.percentage == 100 && s.saved == s.hashed == [first] && s.last == Broken
  {
    hide Percent;
    var s0, chunk := Start(total, [first, second], buf), [first];
    acts := [Read(chunk, Broken), Take(1), Hash, Store, Report, Return, Complete];
    var s1 := Step(s0, acts[0]);
    assert s1.buf[..1] == chunk;
    var s2 := Step(s1, acts[1]);
    assert s2.consumer == Hashing(chunk);
    var s4 := Step(Step(s2, acts[2]), acts[3]);
    var s7 := Step(Step(Step(s4, acts[4]), acts[5]), acts[6]);
    SevenSteps(s0, acts);
  }

  lemma SevenSteps(s: State, acts: seq<Action>)
    requires |acts| == 7
    ensures Run(s, acts) ==
            Step(Step(Step(Step(Step(Step(Step(s, acts[0]), acts[1]), acts[2]), acts[3]), acts[4]), acts[5]), acts[6])
  {
    hide Step;
    assert acts[..1][..0] == [] && acts[..2][..1] == acts[..1] && acts[..3][..2] == acts[..2];
    assert acts[..4][..3] == acts[..3] && acts[..5][..4] == acts[..4] && acts[..6][..5] == acts[..5];
    assert Run(s, acts[..1]) == Step(s, acts[0]);
    assert Run(s, acts[..2]) == Step(Run(s, acts[..1]), acts[1]);
    assert Run(s, acts[..3]) == Step(Run(s, acts[..2]), acts[2]);
    assert Run(s, acts[..4]) == Step(Run(s, acts[..3]), acts[3]);
    assert Run(s, acts[..5]) == Step(Run(s, acts[..4]), acts[4]);
    assert Run(s, acts[..6]) == Step(Run(s, acts[..5]), acts[5]);
  }

  /** `received` is the concatenation of the chunks delivered. */
  function Chunks(s: State, acts: seq<Action>): seq<seq<byte>> {
    if acts == [] then []
    else
      var before, a := acts[..|acts| - 1], acts[|acts| - 1];
      Chunks(s, before) + if a.Read? && Enabled(Run(s, before), a) then [a.chunk] else []
  }

  function Concat(chunks: seq<seq<byte>>): seq<byte> {
    if chunks == [] then [] else Concat(chunks[..|chunks| - 1]) + chunks[|chunks| - 1]
  }

  lemma StepReceives(s: State, a: Action)
    ensures Step(s, a).received == s.received + if a.Read? && Enabled(s, a) then a.chunk else []
  {
    hide Percent;
  }

  lemma ConcatOneMore(chunks: seq<seq<byte>>, chunk: seq<byte>)
    ensures Concat(chunks + [chunk]) == Concat(chunks) + chunk
  {
    assert (chunks + [chunk])[..|chunks + [chunk]| - 1] == chunks;
  }

  lemma {:induction false} ReceivedIsConcat(s: State, acts: seq<Action>)
    ensures Run(s, acts).received == s.received + Concat(Chunks(s, acts))
  {
    hide Step, Enabled;
    if acts != [] {
      var before, a := acts[..|acts| - 1], acts[|acts| - 1];
      ReceivedIsConcat(s, before);
      StepReceives(Run(s, before), a);
      if a.Read? && Enabled(Run(s, before), a) {
        ConcatOneMore(Chunks(s, before), a.chunk);
        assert Chunks(s, acts) == Chunks(s, before) + [a.chunk];
        assert s.received + Concat(Chunks(s, before)) + a.chunk == s.received + (Concat(Chunks(s, before)) + a.chunk);
      } else {
        assert Chunks(s, acts) == Chunks(s, before);
      }
    }
  }

  /** A watcher sees progress that never goes back, stays within 0 to 100, and
      once completed is completed, at 100, for good. */
  lemma {:induction false} ProgressOnlyGrows(total: int, part: seq<byte>, buf: seq<byte>, acts: seq<Action>,
                                             more: seq<Action>)
    requires total > 0
    ensures var s0 := Start(total, part, buf);
            var p, p' := Run(s0, acts).progress, Run(s0, acts + more).progress;
            && 0 <= p.percentage <= p'.percentage <= 100 && p.bytesDone <= p'.bytesDone <= total
            && (p.completed ==> p'.completed && p.percentage == p'.percentage == 100)
    decreases |more|
  {
    hide Run, Step, Conserved, Ordered, Enabled, Percent;
    var s0, all := Start(total, part, buf), acts + more;
    var s, end := Run(s0, acts), Run(s0, all);
    RunSound(total, part, buf, acts);
    RunSound(total, part, buf, all);
    if more == [] {
      assert all == acts;
      PercentRange(s.progress.bytesDone, s.bytesRead, total);
    } else {
      var before := all[..|all| - 1];
      assert before == acts + more[..|more| - 1] && all == before + [all[|all| - 1]];
      ProgressOnlyGrows(total, part, buf, acts, more[..|more| - 1]);
      RunSound(total, part, buf, before);
      RunOneMore(s0, before, all[|all| - 1]);
      AccountedStep(Run(s0, before), all[|all| - 1]);
    }
  }

  /** What a watcher is shown: the bytes reported so far, in whole percent of the
      declared length, until the upload is completed. */
  lemma ProgressMeaning(total: int, part: seq<byte>, buf: seq<byte>, acts: seq<Action>)
    requires total > 0
    ensures var s := Run(Start(total, part, buf), acts);
            && (s.progress.percentage * total <= 100 * s.progress.bytesDone < (s.progress.percentage + 1) * total
                || s.progress.completed)
            && (s.progress.completed <==> s.consumer.Recorded?)
            && 0 <= s.progress.bytesDone <= |s.received|
            && (!s.producer.Offering? ==> s.progress.bytesDone == |s.received|)
  {
    hide Run, Step, Conserved, Ordered;
    RunSound(total, part, buf, acts);
    var s := Run(Start(total, part, buf), acts);
    if !s.progress.completed {
      PercentExactIff(s.progress.bytesDone);
      var p := s.progress.percentage;
      assert p == s.progress.bytesDone * 100 / total;
    }
  }

  /** Unless the save fails the two sides never wait for each other for ever:
      until the upload is completed, some step can be taken, whatever the part
      delivers next. */
  lemma NeverStuck(total: int, part: seq<byte>, buf: seq<byte>, acts: seq<Action>, chunk: seq<byte>, outcome: Outcome)
    returns (a: Action)
    requires total > 0
    ensures var s := Run(Start(total, part, buf), acts);
            s.consumer.Recorded? || s.consumer.Failed?
            || (!a.Fail? && (Enabled(s, a) || (a == Read(chunk, outcome) && s.producer.Reading?)))
  {
    hide Run, Conserved;
    RunSound(total, part, buf, acts);
    var s := Run(Start(total, part, buf), acts);
    match s.consumer
    case Hashing(_) => a := Hash;
    case Storing(_) => a := Store;
    case Returned(_) => a := Complete;
    case Recorded(_) => a := Complete;
    case Failed(_) => a := Complete;
    case Waiting =>
      match s.producer
      case Reading => a := Read(chunk, outcome);
      case Closed => a := Return;
      case Offering(from, to) => a := if from < to then Take(1) else Report;
  }

  // ------------------------------------------------------ a failed save

  /** No continuation of the run lets the copying goroutine finish. */
  ghost predicate NeverCloses(s: State) {
    forall acts :: !Run(s, acts).producer.Closed?
  }

  /** A save that fails while it stores keeps whatever part of its slice it had
      stored; one that fails earlier keeps nothing of it. */
  lemma FailedSaveKeeps(s: State, stored: nat)
    ensures s.consumer.Storing? && stored <= |s.consumer.slice| ==>
              var s' := Step(s, Fail(stored));
              s'.saved == s.saved + s.consumer.slice[..stored] && s'.consumer == Failed(s.consumer.slice[stored..])
    ensures s.consumer.Waiting? || s.consumer.Hashing? ==>
              Step(s, Fail(0)).saved == s.saved && Step(s, Fail(0)).consumer.Failed?
              && (stored > 0 ==> Step(s, Fail(stored)) == s)
  {
  }

  /** Once the save has failed, bytes offered to the pipe stay there. */
  lemma StaysOffered(s: State, a: Action)
    requires s.consumer.Failed? && Ordered(s)
    ensures Step(s, a).consumer == s.consumer
    ensures Offered(s) != [] ==> Step(s, a) == s
    ensures Offered(s) == [] && Step(s, a).received != s.received ==> Offered(Step(s, a)) != []
    ensures Offered(s) == [] && Step(s, a).received == s.received ==> Offered(Step(s, a)) == []
  {
    hide Percent;
    if a.Read? && Enabled(s, a) {
      assert (a.chunk + s.buf[|a.chunk|..])[..|a.chunk|] == a.chunk;
    }
  }

  lemma {:induction false} AfterFailure(s: State, acts: seq<Action>)
    requires s.consumer.Failed? && Sound(s)
    ensures var s' := Run(s, acts);
            && Sound(s') && s'.consumer == s.consumer
            && (Offered(s') != [] <==> Offered(s) != [] || s'.received != s.received)
    ensures |Run(s, acts).received| >= |s.received|
  {
    hide Step, Ordered, Conserved, Accounted, Offered;
    SoundRun(s, acts);
    if acts != [] {
      var before := Run(s, acts[..|acts| - 1]);
      AfterFailure(s, acts[..|acts| - 1]);
      StaysOffered(before, acts[|acts| - 1]);
      StepReceives(before, acts[|acts| - 1]);
    }
  }

  /** With nothing offered, the goroutine can still come to its end: a part that
      delivers no more bytes lets it. */
  lemma MayClose(s: State) returns (acts: seq<Action>)
    requires Sound(s) && Offered(s) == []
    ensures Run(s, acts).producer.Closed?
  {
    hide Percent, Accounted;
    assert s.total > 0 && |s.received| <= s.total && |s.received| <= LIMIT by {
      assert Accounted(s);
      TotalsOf(s);
    }
    var stop := Read([], if s.received == s.part then End else Broken);
    assert s.received + [] == s.received;
    if s.producer.Closed? {
      acts := [];
    } else if s.producer.Reading? {
      acts := [stop];
      assert [stop][..0] == [];
      assert Run(s, acts) == Step(s, stop);
    } else {
      var s1 := Step(s, Report);
      acts := if s1.producer.Closed? then [Report] else [Report, stop];
      assert [Report][..0] == [] && [Report, stop][..1] == [Report];
      assert Run(s, [Report]) == s1;
      assert Run(s, [Report, stop]) == Step(s1, stop);
    }
  }

  lemma TotalsOf(s: State)
    requires Accounted(s)
    ensures s.total > 0 && |s.received| <= s.total && |s.received| <= LIMIT
  {
  }

  /** After a failed save, and any continuation of the run, the copying
      goroutine can never finish any more if and only if bytes were on offer
      and untaken when the save failed, or some read since delivered a byte:
      nobody closes the reading end of the pipe. */
  lemma FailedSaveStrandsIff(s: State, acts: seq<Action>)
    requires s.consumer.Failed? && Sound(s)
    ensures NeverCloses(Run(s, acts)) <==> Offered(s) != [] || Run(s, acts).received != s.received
  {
    hide Step, Ordered, Conserved, Accounted, Offered;
    AfterFailure(s, acts);
    var s' := Run(s, acts);
    if Offered(s') != [] {
      forall more
        ensures !Run(s', more).producer.Closed?
      {
        AfterFailure(s', more);
        OfferedIsOpen(Run(s', more));
      }
    } else {
      var more := MayClose(s');
      assert Run(s', more).producer.Closed?;
    }
  }

  lemma OfferedIsOpen(s: State)
    requires Offered(s) != []
    ensures !s.producer.Closed?
  {
  }

  /** Such a state is reached at once: a first chunk is read, and the save fails
      before it takes any of it. */
  lemma StrandedFromStart(total: int, first: byte, buf: seq<byte>) returns (acts: seq<Action>)
    requires total >= 1 && |buf| > 0
    ensures var s := Run(Start(total, [first], buf), acts); s.consumer.Failed? && NeverCloses(s)
  {
    hide Percent, NeverCloses;
    var s0, read := Start(total, [first], buf), Read([first], End);
    acts := [read, Fail(0)];
    assert [read, Fail(0)][..1] == [read] && [read][..0] == [];
    assert Run(s0, [read]) == Step(s0, read);
    var s := Run(s0, acts);
    assert s == Step(Step(s0, read), Fail(0));
    assert Offered(s) != [];
    RunSound(total, [first], buf, acts);
    assert Run(s, []) == s;
    FailedSaveStrandsIff(s, []);
  }

  // -------------------------------------------------- the goroutines in place

  /** The steps of the copying goroutine; the others are the consumer's. */
  predicate Copies(a: Action) {
    a.Read? || a.Report?
  }

  lemma SidesKeepApart(s: State, a: Action)
    ensures Copies(a) ==> Step(s, a).consumer == s.consumer && Step(s, a).saved == s.saved
    ensures !Copies(a) ==>
              Step(s, a).received == s.received && (Step(s, a).producer.Offering? <==> s.producer.Offering?)
    ensures !Copies(a) && !s.producer.Offering? ==> Step(s, a).producer == s.producer
  {
    hide Percent;
  }

  type Delivery = (seq<byte>, Outcome)

  function ChunksOf(deliveries: seq<Delivery>): seq<seq<byte>> {
    seq(|deliveries|, i requires 0 <= i < |deliveries| => deliveries[i].0)
  }

  /** The part can deliver these one after the other. */
  ghost predicate CanDeliver(s: State, deliveries: seq<Delivery>) {
    forall i | 0 <= i < |deliveries| ::
      Deliverable(s.(received := s.received + Concat(ChunksOf(deliveries[..i]))), deliveries[i].0, deliveries[i].1)
  }

  lemma OneMoreRead(deliveries: seq<Delivery>, n: nat)
    requires n < |deliveries|
    ensures Concat(ChunksOf(deliveries[..n + 1])) == Concat(ChunksOf(deliveries[..n])) + deliveries[n].0
  {
    ConcatOneMore(ChunksOf(deliveries[..n]), deliveries[n].0);
    assert ChunksOf(deliveries[..n + 1]) == ChunksOf(deliveries[..n]) + [deliveries[n].0];
  }

  /** The locals of both goroutines and the progress entry; `acts` remembers
      what the two have done. */
  class Pipe {
    const total: int
    const part: seq<byte>
    const buf: array<byte>
    ghost const blank: seq<byte>
    var producer: Producer
    var consumer: Consumer
    var bytesRead: int
    var hashed: seq<byte>
    var saved: seq<byte>
    var bytesDone: int
    var percentage: int
    var completed: bool
    var received: seq<byte>
    var last: Outcome
    ghost var acts: seq<Action>

    constructor (contentLength: int, content: seq<byte>)
      requires contentLength > 0
      ensures Valid() && fresh(buf) && buf.Length == BUFFER && acts == [] && part == content && total == contentLength
      ensures producer == Reading && consumer == Waiting && received == []
    {
      total, part := contentLength, content;
      var bytes := new byte[BUFFER];
      buf, blank := bytes, bytes[..];
      producer, consumer, bytesRead, last := Reading, Waiting, 0, More;
      hashed, saved := [], [];
      bytesDone, percentage, completed := 0, 0, false;
      received, acts := [], [];
    }

    function Now(): State
      reads this, buf
    {
      State(total, part, buf[..], producer, consumer, bytesRead, hashed, saved,
            Progress(bytesDone, percentage, completed), received, last)
    }

    /** The fields are what the steps so far have made of them. */
    ghost predicate Valid()
      reads this, buf
    {
      total > 0 && Now() == Run(Start(total, part, blank), acts)
    }

    /** `part.Read(buf)`: what was in the front of the buffer is gone. */
    method Fill(chunk: seq<byte>)
      requires |chunk| <= buf.Length
      modifies buf
      ensures buf[..] == chunk + old(buf[..])[|chunk|..]
    {
      ghost var before := buf[..];
      for i := 0 to |chunk|
        invariant forall k | 0 <= k < i :: buf[k] == chunk[k]
        invariant forall k | i <= k < buf.Length :: buf[k] == before[k]
      {
        buf[i] := chunk[i];
      }
      assert buf[..] == chunk + before[|chunk|..];
    }

    /** One step of either goroutine, when it can be taken. */
    method Perform(a: Action)
      requires Valid()
      modifies this, buf
      ensures Valid() && acts == old(acts) + [a] && Now() == Step(old(Now()), a)
    {
      hide Run, Percent;
      RunOneMore(Start(total, part, blank), acts, a);
      acts := acts + [a];
      if !Enabled(Now(), a) {
        return;
      }
      match a
      case Read(chunk, outcome) =>
        Fill(chunk);
        bytesRead := bytesRead + |chunk|;
        received := received + chunk;
        last := outcome;
        producer := if |chunk| > 0 then Offering(0, |chunk|) else if outcome != More then Closed else Reading;
      case Take(count) =>
        var from := producer.from;
        consumer := Hashing(buf[from..from + count]);
        producer := producer.(from := from + count);
      case Hash =>
        hashed := hashed + consumer.slice;
        consumer := Storing(consumer.slice);
      case Store =>
        saved := saved + consumer.slice;
        consumer := Waiting;
      case Report =>
        bytesDone := bytesRead;
        percentage := Percent(bytesRead, total);
        producer := if last != More then Closed else Reading;
      case Return =>
        consumer := Returned(|saved|);
      case Complete =>
        completed := true;
        percentage := 100;
        consumer := Recorded(consumer.size);
      case Fail(stored) =>
        var slice := if consumer.Hashing? || consumer.Storing? then consumer.slice else [];
        saved := saved + slice[..stored];
        consumer := Failed(slice[stored..]);
    }

    /** The other side moves, as the scheduler lets it. */
    method Interleave(steps: seq<Action>)
      requires Valid()
      modifies this, buf
      ensures Valid() && acts == old(acts) + steps
      ensures (forall a | a in steps :: Copies(a)) ==> consumer == old(consumer)
      ensures (forall a | a in steps :: !Copies(a)) ==>
                received == old(received) && (producer.Offering? <==> old(producer.Offering?))
                && (!old(producer.Offering?) ==> producer == old(producer))
    {
      hide Run, Step, Copies;
      for i := 0 to |steps|
        invariant Valid() && acts == old(acts) + steps[..i]
        invariant (forall a | a in steps :: Copies(a)) ==> consumer == old(consumer)
        invariant (forall a | a in steps :: !Copies(a)) ==>
                    received == old(received) && (producer.Offering? <==> old(producer.Offering?))
                    && (!old(producer.Offering?) ==> producer == old(producer))
      {
        assert steps[i] in steps && steps[..i + 1] == steps[..i] + [steps[i]];
        SidesKeepApart(Now(), steps[i]);
        Perform(steps[i]);
      }
      assert steps[..|steps|] == steps;
    }

    /** The copying loop: read, write to the pipe and wait for it to be taken,
        report. It ends with the pipe closed and every byte it read reported,
        or blocked in the pipe, or with all it was given to read reported. */
    method CopyPart(deliveries: seq<Delivery>, turns: seq<seq<Action>>) returns (n: nat)
      requires Valid() && producer.Reading? && |turns| == |deliveries| && CanDeliver(Now(), deliveries)
      requires forall t, a | t in turns && a in t :: !Copies(a)
      modifies this, buf
      ensures Valid() && n <= |deliveries| && received == old(received) + Concat(ChunksOf(deliveries[..n]))
      ensures producer.Reading? ==> n == |deliveries|
      ensures !producer.Offering? ==> bytesDone == |received|
      ensures producer.Offering? ==> Offered(Now()) != []
      ensures producer.Closed? ==> last != More && (last == End <==> received == part)
    {
      hide Run, Step, Copies, Deliverable, CanDeliver, Conserved, Percent;
      n := 0;
      ghost var s := Now();
      assert received == old(received) + Concat(ChunksOf(deliveries[..0]));
      RunSound(total, part, blank, acts);
      while n < |deliveries| && producer.Reading?
        invariant Valid() && n <= |deliveries| && received == old(received) + Concat(ChunksOf(deliveries[..n]))
        invariant producer.Offering? ==> producer.from < producer.to
        decreases |deliveries| - n
      {
        var (chunk, outcome) := deliveries[n];
        NextDeliverable(s, Now(), deliveries, n);
        ReadDelivers(Now(), chunk, outcome);
        OneMoreRead(deliveries, n);
        Perform(Read(chunk, outcome));
        assert turns[n] in turns;
        Interleave(turns[n]);
        RunSound(total, part, blank, acts);
        if producer.Offering? && producer.from == producer.to {
          ReportMoves(Now());
          Perform(Report);
        }
        n := n + 1;
      }
      RunSound(total, part, blank, acts);
      Summary(Now());
    }

    static lemma NextDeliverable(s: State, now: State, deliveries: seq<Delivery>, n: nat)
      requires CanDeliver(s, deliveries) && n < |deliveries|
      requires now.received == s.received + Concat(ChunksOf(deliveries[..n]))
      requires now.total == s.total && now.part == s.part && |now.buf| == |s.buf|
      ensures Deliverable(now, deliveries[n].0, deliveries[n].1)
    {
    }

    static lemma ReadDelivers(s: State, chunk: seq<byte>, outcome: Outcome)
      requires s.producer.Reading? && Deliverable(s, chunk, outcome)
      ensures Step(s, Read(chunk, outcome)).received == s.received + chunk
    {
    }

    static lemma ReportMoves(s: State)
      requires s.producer.Offering? && s.producer.from == s.producer.to && s.total > 0
      ensures !Step(s, Report).producer.Offering? && Step(s, Report).received == s.received
    {
    }

    static lemma Summary(s: State)
      requires Sound(s)
      ensures !s.producer.Offering? ==> s.progress.bytesDone == |s.received|
      ensures s.producer.Offering? && s.producer.from < s.producer.to ==> Offered(s) != []
      ensures s.producer.Closed? ==> s.last != More && (s.last == End <==> s.received == s.part)
    {
    }

    /** `Save` over the tee: take what is on offer, hash it, store it, until the
        pipe is closed. When it returns, everything read was hashed and stored. */
    method SaveStream(counts: seq<nat>, turns: seq<seq<Action>>)
      requires Valid() && consumer.Waiting? && |turns| == |counts|
      requires forall t, a | t in turns && a in t :: Copies(a)
      modifies this, buf
      ensures Valid() && (consumer.Waiting? || consumer.Returned?)
      ensures consumer.Waiting? ==> saved == hashed && saved <= received
      ensures consumer.Returned? ==> saved == hashed == received && consumer.size == |received| == bytesDone
    {
      hide Run, Step, Copies;
      for i := 0 to |counts|
        invariant Valid() && consumer.Waiting?
      {
        assert turns[i] in turns;
        Interleave(turns[i]);
        RunSound(total, part, blank, acts);
        if producer.Closed? {
          ReturnMoves(Now());
          Perform(Return);
          SavedIsReceived(total, part, blank, acts);
          return;
        }
        if producer.Offering? && producer.from < producer.to {
          var left := producer.to - producer.from;
          var count := if counts[i] == 0 then 1 else if counts[i] < left then counts[i] else left;
          SliceMoves(Now(), count);
          Perform(Take(count));
          Perform(Hash);
          Perform(Store);
        }
      }
      RunSound(total, part, blank, acts);
      WaitingSaved(Now());
    }

    static lemma ReturnMoves(s: State)
      requires s.consumer.Waiting? && s.producer.Closed?
      ensures Step(s, Return).consumer.Returned?
    {
    }

    static lemma SliceMoves(s: State, count: nat)
      requires s.consumer.Waiting? && s.producer.Offering? && 0 < count <= s.producer.to - s.producer.from
      requires s.producer.to <= |s.buf|
      ensures Step(Step(Step(s, Take(count)), Hash), Store).consumer.Waiting?
    {
    }

    static lemma WaitingSaved(s: State)
      requires Sound(s) && s.consumer.Waiting?
      ensures s.saved == s.hashed && s.saved <= s.received
    {
    }
  }
}
