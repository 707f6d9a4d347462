/**
 The streaming protocol of `Chat.Stream` (internal/core/usecase/chat.go): a producer goroutine
 that sends one chunk per word over an unbuffered channel, a handler that drains the channel,
 and a request context that may be cancelled at any moment.

 Each step below is one atomic action of one of the three.  A run is any sequence of enabled
 steps, so a statement about every run covers every interleaving.
 */
module StreamProtocol {
  import opened Domain
  import opened Texts

  /** What the goroutine captures when `Stream` starts it; delays are in nanoseconds. */
  datatype Plan = Plan(
    id: string,
    model: string,
    created: int,
    words: seq<string>,
    interDelay: nat,
    usage: TokenUsage)

  /** The producer's program points. */
  datatype Pc =
    | LoopHead(i: nat)   // about to test the range loop and the context
    | AtSend(i: nat)     // blocked on `ch <- chunk` for word i
    | AtPace(i: nat)     // word i delivered, its delay not yet paid
    | AtFinal            // blocked on sending the final chunk
    | Exiting            // about to run the deferred close
    | Closed

  /** The handler: `Absent` is a handler that returned without ever receiving. */
  datatype Consumer = Waiting | Handling(chunk: StreamChunk) | Done | Absent

  datatype State = State(
    pc: Pc,
    cancelled: bool,
    paced: nat,
    sent: seq<StreamChunk>,
    handled: seq<StreamChunk>,
    consumer: Consumer)

  datatype Step = Head | SendWord | Pace | SendFinal | Close | Handle | SeeClosed | Cancel

  function WordChunk(p: Plan, i: nat): StreamChunk
    requires i < |p.words|
  {
    StreamChunk(p.id, p.model, p.created, 0, if i == 0 then ROLE_ASSISTANT else "", p.words[i], Unset, None)
  }

  function FinalChunk(p: Plan): StreamChunk {
    StreamChunk(p.id, p.model, p.created, 0, "", "", Stop, Some(p.usage))
  }

  predicate Enabled(p: Plan, s: State, step: Step) {
    match step
    case Head => s.pc.LoopHead?
    case SendWord => s.pc.AtSend? && s.pc.i < |p.words| && s.consumer.Waiting?
    case Pace => s.pc.AtPace?
    case SendFinal => s.pc.AtFinal? && s.consumer.Waiting?
    case Close => s.pc.Exiting?
    case Handle => s.consumer.Handling?
    case SeeClosed => s.pc.Closed? && s.consumer.Waiting?
    case Cancel => !s.cancelled
  }

  function Apply(p: Plan, s: State, step: Step): State
    requires Enabled(p, s, step)
  {
    match step
    case Head =>
      if s.pc.i >= |p.words| then s.(pc := AtFinal)
      else if s.cancelled then s.(pc := Exiting)
      else s.(pc := AtSend(s.pc.i))
    case SendWord =>
      var chunk := WordChunk(p, s.pc.i);
      s.(pc := AtPace(s.pc.i), sent := s.sent + [chunk], consumer := Handling(chunk))
    case Pace =>
      s.(pc := LoopHead(s.pc.i + 1), paced := s.paced + p.interDelay)
    case SendFinal =>
      s.(pc := Exiting, sent := s.sent + [FinalChunk(p)], consumer := Handling(FinalChunk(p)))
    case Close => s.(pc := Closed)
    case Handle => s.(handled := s.handled + [s.consumer.chunk], consumer := Waiting)
    case SeeClosed => s.(consumer := Done)
    case Cancel => s.(cancelled := true)
  }

  /** The context may already be cancelled when the goroutine starts. */
  predicate Init(s: State) {
    s.pc == LoopHead(0) && s.paced == 0 && s.sent == [] && s.handled == [] &&
    (s.consumer.Waiting? || s.consumer.Absent?)
  }

  predicate Legal(p: Plan, s: State, run: seq<Step>)
    decreases |run|
  {
    run == [] || (Enabled(p, s, run[0]) && Legal(p, Apply(p, s, run[0]), run[1..]))
  }

  function After(p: Plan, s: State, run: seq<Step>): State
    requires Legal(p, s, run)
    decreases |run|
  {
    if run == [] then s else After(p, Apply(p, s, run[0]), run[1..])
  }

  // ---- What every run keeps ----

  /** Everything an uncancelled stream sends: a chunk for each word, then the final chunk. */
  function FullStream(p: Plan): (chunks: seq<StreamChunk>)
    ensures |chunks| == |p.words| + 1
    ensures forall i :: 0 <= i < |p.words| ==> chunks[i] == WordChunk(p, i)
    ensures chunks[|p.words|] == FinalChunk(p)
  {
    seq(|p.words|, i requires 0 <= i < |p.words| => WordChunk(p, i)) + [FinalChunk(p)]
  }

  /** How many chunks have been sent, and how many delays paid, at each program point. */
  predicate PcMatches(p: Plan, s: State) {
    var n := |p.words|;
    match s.pc
    case LoopHead(i) => i <= n && |s.sent| == i && s.paced == i * p.interDelay
    case AtSend(i) => i < n && |s.sent| == i && s.paced == i * p.interDelay
    case AtPace(i) => i < n && |s.sent| == i + 1 && s.paced == i * p.interDelay
    case AtFinal => |s.sent| == n && s.paced == n * p.interDelay
    case _ =>
      if |s.sent| == n + 1 then s.paced == n * p.interDelay
      else s.cancelled && |s.sent| < n && s.paced == |s.sent| * p.interDelay
  }

  predicate ConsumerMatches(s: State) {
    match s.consumer
    case Waiting => s.handled == s.sent
    case Handling(c) => s.sent == s.handled + [c]
    case Done => s.handled == s.sent && s.pc.Closed?
    case Absent => s.sent == [] && s.handled == []
  }

  predicate Inv(p: Plan, s: State) {
    s.sent <= FullStream(p) && PcMatches(p, s) && ConsumerMatches(s)
  }

  lemma StepKeepsInv(p: Plan, s: State, step: Step)
    requires Inv(p, s) && Enabled(p, s, step)
    ensures Inv(p, Apply(p, s, step))
  {
    var full := FullStream(p);
    match step
    case SendWord => assert s.sent + [full[|s.sent|]] <= full;
    case SendFinal => assert s.sent + [full[|s.sent|]] <= full;
    case Pace => assert (s.pc.i + 1) * p.interDelay == s.pc.i * p.interDelay + p.interDelay;
    case _ =>
  }

  lemma {:induction false} RunKeepsInv(p: Plan, s: State, run: seq<Step>)
    requires Inv(p, s) && Legal(p, s, run)
    ensures Inv(p, After(p, s, run))
    decreases |run|
  {
    if run != [] {
      StepKeepsInv(p, s, run[0]);
      RunKeepsInv(p, Apply(p, s, run[0]), run[1..]);
    }
  }

  lemma InitInv(p: Plan, s: State)
    requires Init(s)
    ensures Inv(p, s)
  {
  }

  predicate IsFinal(c: StreamChunk) {
    c.finishReason != Unset
  }

  function WordsSent(p: Plan, s: State): nat {
    if |s.sent| <= |p.words| then |s.sent| else |p.words|
  }

  /** The text a client has been sent so far. */
  function DeltaText(chunks: seq<StreamChunk>): string {
    if chunks == [] then "" else chunks[0].deltaContent + DeltaText(chunks[1..])
  }

  lemma {:induction false} DeltaTextSnoc(chunks: seq<StreamChunk>, c: StreamChunk)
    ensures DeltaText(chunks + [c]) == DeltaText(chunks) + c.deltaContent
  {
    if chunks == [] {
      assert [c][1..] == [];
    } else {
      assert (chunks + [c])[1..] == chunks[1..] + [c];
      DeltaTextSnoc(chunks[1..], c);
    }
  }

  lemma {:induction false} DeltaTextOfPrefix(p: Plan, k: nat)
    requires k <= |p.words| + 1
    ensures DeltaText(FullStream(p)[..k]) ==
            Concat(p.words[..if k <= |p.words| then k else |p.words|])
  {
    if k > 0 {
      var full := FullStream(p);
      DeltaTextOfPrefix(p, k - 1);
      assert full[..k] == full[..k - 1] + [full[k - 1]];
      DeltaTextSnoc(full[..k - 1], full[k - 1]);
      if k <= |p.words| {
        assert p.words[..k] == p.words[..k - 1] + [p.words[k - 1]];
        ConcatSnoc(p.words[..k - 1], p.words[k - 1]);
      } else {
        assert p.words[..k - 1] == p.words;
      }
    }
  }

  /**
   Safety over every interleaving of producer, handler and cancellation.  The chunks sent are
   always a prefix of the full stream; they share one identity; only the first carries the role;
   a finish chunk is the last one, carries the usage, and is there only when every word is.
   */
  lemma EveryRunIsSafe(p: Plan, s0: State, run: seq<Step>)
    requires Init(s0) && Legal(p, s0, run)
    ensures var s := After(p, s0, run);
      && s.sent <= FullStream(p)
      && s.handled <= s.sent
      && |s.sent| <= |s.handled| + 1
      && (forall i :: 0 <= i < |s.sent| ==>
            && s.sent[i].id == p.id && s.sent[i].model == p.model && s.sent[i].created == p.created
            && s.sent[i].index == 0
            && s.sent[i].deltaContent == (if i < |p.words| then p.words[i] else "")
            && s.sent[i].deltaRole == (if i == 0 && p.words != [] then "assistant" else "")
            && (IsFinal(s.sent[i]) <==> i == |p.words|)
            && (IsFinal(s.sent[i]) <==> s.sent[i].usage == Some(p.usage))
            && (!IsFinal(s.sent[i]) <==> s.sent[i].usage == None))
      && DeltaText(s.sent) == Concat(p.words[..WordsSent(p, s)])
  {
    InitInv(p, s0);
    RunKeepsInv(p, s0, run);
    var s := After(p, s0, run);
    DeltaTextOfPrefix(p, |s.sent|);
    assert s.sent == FullStream(p)[..|s.sent|];
  }

  /** When the channel is closed, the finish chunk is there exactly if every word is, and a
      missing word means the request was cancelled. */
  lemma ClosedOutcome(p: Plan, s0: State, run: seq<Step>)
    requires Init(s0) && Legal(p, s0, run)
    requires After(p, s0, run).pc.Closed?
    ensures var s := After(p, s0, run);
      && (s.sent == FullStream(p) <==> WordsSent(p, s) == |p.words|)
      && (s.sent != FullStream(p) ==> s.cancelled && |s.sent| < |p.words|)
      && s.paced == WordsSent(p, s) * p.interDelay
  {
    InitInv(p, s0);
    RunKeepsInv(p, s0, run);
  }

  // ---- Cancellation ----

  /** Words already sent or already committed to be sent. */
  function Committed(p: Plan, s: State): nat {
    WordsSent(p, s) + if s.pc.AtSend? then 1 else 0
  }

  lemma CancelledStep(p: Plan, s: State, step: Step)
    requires Inv(p, s) && s.cancelled && Enabled(p, s, step)
    ensures Apply(p, s, step).cancelled
    ensures Committed(p, Apply(p, s, step)) <= Committed(p, s)
  {
  }

  lemma {:induction false} CancelledRun(p: Plan, s: State, run: seq<Step>)
    requires Inv(p, s) && s.cancelled && Legal(p, s, run)
    ensures Committed(p, After(p, s, run)) <= Committed(p, s)
    decreases |run|
  {
    if run != [] {
      CancelledStep(p, s, run[0]);
      StepKeepsInv(p, s, run[0]);
      CancelledRun(p, Apply(p, s, run[0]), run[1..]);
    }
  }

  /** From any moment at which the context is cancelled, at most one more word is delivered. */
  lemma AtMostOneWordAfterCancel(p: Plan, s0: State, before: seq<Step>, after: seq<Step>)
    requires Init(s0) && Legal(p, s0, before)
    requires After(p, s0, before).cancelled && Legal(p, After(p, s0, before), after)
    ensures WordsSent(p, After(p, After(p, s0, before), after)) <= WordsSent(p, After(p, s0, before)) + 1
  {
    InitInv(p, s0);
    RunKeepsInv(p, s0, before);
    CancelledRun(p, After(p, s0, before), after);
  }

  // ---- Progress and termination ----

  /** Nothing left to do on either side. */
  predicate Finished(s: State) {
    s.pc.Closed? && (s.consumer.Done? || s.consumer.Absent?)
  }

  /** The producer waits for a receiver that does not exist. */
  predicate Leaked(s: State) {
    s.consumer.Absent? && (s.pc.AtSend? || s.pc.AtFinal?)
  }

  predicate CanMove(p: Plan, s: State) {
    exists step :: step != Cancel && Enabled(p, s, step)
  }

  function StepFor(s: State): Step {
    if s.consumer.Handling? then Handle
    else match s.pc
      case LoopHead(_) => Head
      case AtSend(_) => SendWord
      case AtPace(_) => Pace
      case AtFinal => SendFinal
      case Exiting => Close
      case Closed => SeeClosed
  }

  /**
   Progress: a reachable state can move unless the stream is over or its receiver is missing.
   A draining handler is never missing, so its stream is never stuck, cancelled or not.
   */
  lemma Progress(p: Plan, s0: State, run: seq<Step>)
    requires Init(s0) && Legal(p, s0, run)
    ensures var s := After(p, s0, run);
      && (CanMove(p, s) <==> !Finished(s) && !Leaked(s))
      && (s0.consumer.Waiting? ==> !Leaked(s))
      && (s0.consumer.Waiting? && Finished(s) ==> s.handled == s.sent)
  {
    InitInv(p, s0);
    RunKeepsInv(p, s0, run);
    StaysAttached(p, s0, run);
    var s := After(p, s0, run);
    if !Finished(s) && !Leaked(s) {
      assert StepFor(s) != Cancel && Enabled(p, s, StepFor(s));
    }
  }

  lemma {:induction false} StaysAttached(p: Plan, s: State, run: seq<Step>)
    requires Legal(p, s, run) && Inv(p, s)
    ensures After(p, s, run).consumer.Absent? <==> s.consumer.Absent?
    decreases |run|
  {
    if run != [] {
      StepKeepsInv(p, s, run[0]);
      StaysAttached(p, Apply(p, s, run[0]), run[1..]);
    }
  }

  function ProducerWork(p: Plan, s: State): nat
    requires PcMatches(p, s)
  {
    var n := |p.words|;
    match s.pc
    case LoopHead(i) => 3 * (n - i) + 3
    case AtSend(i) => 3 * (n - i) + 2
    case AtPace(i) => 3 * (n - i) + 1
    case AtFinal => 2
    case Exiting => 1
    case Closed => 0
  }

  /** The work left: producer points, the chunk in hand, the end of the channel, one cancellation. */
  function Work(p: Plan, s: State): nat
    requires PcMatches(p, s)
  {
    2 * ProducerWork(p, s)
    + (match s.consumer case Handling(_) => 2 case Waiting => 1 case _ => 0)
    + if s.cancelled then 0 else 1
  }

  lemma StepDoesWork(p: Plan, s: State, step: Step)
    requires Inv(p, s) && Enabled(p, s, step)
    ensures Inv(p, Apply(p, s, step))
    ensures Work(p, Apply(p, s, step)) < Work(p, s)
  {
    StepKeepsInv(p, s, step);
  }

  lemma {:induction false} RunDoesWork(p: Plan, s: State, run: seq<Step>)
    requires Inv(p, s) && Legal(p, s, run)
    ensures |run| <= Work(p, s)
    decreases |run|
  {
    if run != [] {
      StepDoesWork(p, s, run[0]);
      RunDoesWork(p, Apply(p, s, run[0]), run[1..]);
    }
  }

  /** Termination: no run of a stream of n words has more than 6n + 8 steps. */
  lemma EveryRunEnds(p: Plan, s0: State, run: seq<Step>)
    requires Init(s0) && Legal(p, s0, run)
    ensures |run| <= 6 * |p.words| + 8
  {
    InitInv(p, s0);
    RunDoesWork(p, s0, run);
  }

  /** A run that cannot be extended by the producer or the handler. */
  predicate Complete(p: Plan, s0: State, run: seq<Step>) {
    Legal(p, s0, run) && !CanMove(p, After(p, s0, run))
  }

  /** A complete run of a drained stream that was never cancelled. */
  ghost predicate Whole(p: Plan, s0: State, run: seq<Step>) {
    Init(s0) && s0.consumer.Waiting? && Complete(p, s0, run) && !After(p, s0, run).cancelled
  }

  /** Every complete run of a drained, never cancelled stream delivers the full stream. */
  lemma UncancelledOutcome(p: Plan, s0: State, run: seq<Step>)
    requires Whole(p, s0, run)
    ensures var s := After(p, s0, run);
      && s.pc.Closed? && s.consumer.Done?
      && s.sent == FullStream(p) && s.handled == FullStream(p)
      && s.paced == |p.words| * p.interDelay
      && DeltaText(s.sent) == Concat(p.words)
  {
    InitInv(p, s0);
    RunKeepsInv(p, s0, run);
    Progress(p, s0, run);
    StaysAttached(p, s0, run);
    var full := FullStream(p);
    assert full[..|full|] == full;
    DeltaTextOfPrefix(p, |p.words| + 1);
    assert p.words[..|p.words|] == p.words;
  }

  // ---- A handler that never receives ----

  lemma {:induction false} LeakIsForever(p: Plan, s: State, run: seq<Step>)
    requires Leaked(s) && Legal(p, s, run)
    ensures Leaked(After(p, s, run))
    decreases |run|
  {
    if run != [] {
      LeakIsForever(p, Apply(p, s, run[0]), run[1..]);
    }
  }

  /** Is the context done at the first poll of this run, or at its end if it polls nothing? */
  predicate CancelledAtFirstPoll(run: seq<Step>, cancelled: bool) {
    if run == [] || run[0].Head? then cancelled
    else CancelledAtFirstPoll(run[1..], cancelled || run[0].Cancel?)
  }

  lemma {:induction false} ExitIsForever(p: Plan, s: State, run: seq<Step>)
    requires (s.pc.Exiting? || s.pc.Closed?) && Legal(p, s, run)
    ensures After(p, s, run).pc.Exiting? || After(p, s, run).pc.Closed?
    decreases |run|
  {
    if run != [] {
      ExitIsForever(p, Apply(p, s, run[0]), run[1..]);
    }
  }

  lemma {:induction false} AbandonedRun(p: Plan, s: State, run: seq<Step>)
    requires s.pc == LoopHead(0) && s.consumer.Absent? && Complete(p, s, run)
    ensures Leaked(After(p, s, run)) <==> p.words == [] || !CancelledAtFirstPoll(run, s.cancelled)
    decreases |run|
  {
    assert Head != Cancel && Enabled(p, s, Head);
    if run != [] {
      var next := Apply(p, s, run[0]);
      if run[0].Head? {
        if next.pc.Exiting? {
          ExitIsForever(p, next, run[1..]);
        } else {
          LeakIsForever(p, next, run[1..]);
        }
      } else {
        AbandonedRun(p, next, run[1..]);
      }
    }
  }

  /**
   Without a receiver nothing is sent, and the goroutine is left blocked exactly when the context
   was not yet cancelled at its first poll; a later cancellation does not wake it.  (A reply always
   has a word; without any, the goroutine would block on the finish chunk, unpolled.)
   */
  lemma AbandonedOutcome(p: Plan, s0: State, run: seq<Step>)
    requires Init(s0) && s0.consumer.Absent? && Complete(p, s0, run)
    ensures var s := After(p, s0, run);
      && s.sent == []
      && (Leaked(s) <==> p.words == [] || !CancelledAtFirstPoll(run, s0.cancelled))
      && (s.pc.Closed? <==> p.words != [] && CancelledAtFirstPoll(run, s0.cancelled))
  {
    InitInv(p, s0);
    RunKeepsInv(p, s0, run);
    StaysAttached(p, s0, run);
    Progress(p, s0, run);
    AbandonedRun(p, s0, run);
  }

  /** Both ends do happen, and so does a cancellation that comes too late. */
  lemma AbandonedRuns(p: Plan, s0: State)
    requires Init(s0) && s0.consumer.Absent? && !s0.cancelled && p.words != []
    ensures Complete(p, s0, [Head]) && Leaked(After(p, s0, [Head]))
    ensures Complete(p, s0, [Head, Cancel]) && Leaked(After(p, s0, [Head, Cancel]))
    ensures Complete(p, s0, [Cancel, Head, Close]) && Finished(After(p, s0, [Cancel, Head, Close]))
  {
    var polled, late, gone := Apply(p, s0, Head), [Head, Cancel], [Cancel, Head, Close];
    LegalCons(p, s0, Head, []);
    LegalCons(p, polled, Cancel, []);
    LegalCons(p, s0, Head, [Cancel]);
    var cancelled := Apply(p, s0, Cancel);
    var exiting := Apply(p, cancelled, Head);
    LegalCons(p, exiting, Close, []);
    LegalCons(p, cancelled, Head, [Close]);
    LegalCons(p, s0, Cancel, [Head, Close]);
    assert [Head] == [Head] + [] && [Cancel] == [Cancel] + [] && [Close] == [Close] + [];
    assert late == [Head] + [Cancel] && [Head, Close] == [Head] + [Close] && gone == [Cancel] + [Head, Close];
  }

  // ---- Every outcome a cancellation can have does happen ----

  lemma {:induction false} LegalConcat(p: Plan, s: State, a: seq<Step>, b: seq<Step>)
    requires Legal(p, s, a) && Legal(p, After(p, s, a), b)
    ensures Legal(p, s, a + b)
    ensures After(p, s, a + b) == After(p, After(p, s, a), b)
    decreases |a|
  {
    if a == [] {
      assert a + b == b;
    } else {
      assert (a + b)[1..] == a[1..] + b;
      LegalConcat(p, Apply(p, s, a[0]), a[1..], b);
    }
  }

  lemma LegalCons(p: Plan, s: State, step: Step, rest: seq<Step>)
    requires Enabled(p, s, step) && Legal(p, Apply(p, s, step), rest)
    ensures Legal(p, s, [step] + rest)
    ensures After(p, s, [step] + rest) == After(p, Apply(p, s, step), rest)
  {
    assert ([step] + rest)[1..] == rest;
  }

  lemma Legal4(p: Plan, s: State, a: Step, b: Step, c: Step, d: Step)
    requires Enabled(p, s, a) && Enabled(p, Apply(p, s, a), b)
    requires Enabled(p, Apply(p, Apply(p, s, a), b), c)
    requires Enabled(p, Apply(p, Apply(p, Apply(p, s, a), b), c), d)
    ensures Legal(p, s, [a, b, c, d])
    ensures After(p, s, [a, b, c, d]) == Apply(p, Apply(p, Apply(p, Apply(p, s, a), b), c), d)
  {
    var s1 := Apply(p, s, a);
    var s2 := Apply(p, s1, b);
    var s3 := Apply(p, s2, c);
    LegalCons(p, s3, d, []);
    LegalCons(p, s2, c, [d]);
    LegalCons(p, s1, b, [c, d]);
    LegalCons(p, s, a, [b, c, d]);
    assert [a, b, c, d] == [a] + [b, c, d] && [b, c, d] == [b] + [c, d] && [c, d] == [c] + [d] && [d] == [d] + [];
  }

  lemma {:induction false} DeliverWords(p: Plan, s0: State, k: nat) returns (run: seq<Step>)
    requires Init(s0) && s0.consumer.Waiting? && !s0.cancelled
    requires k <= |p.words|
    ensures Legal(p, s0, run)
    ensures var s := After(p, s0, run);
      s.pc == LoopHead(k) && !s.cancelled && s.consumer.Waiting? && |s.sent| == k
  {
    if k == 0 {
      run := [];
    } else {
      var init := DeliverWords(p, s0, k - 1);
      var s := After(p, s0, init);
      Legal4(p, s, Head, SendWord, Handle, Pace);
      LegalConcat(p, s0, init, [Head, SendWord, Handle, Pace]);
      run := init + [Head, SendWord, Handle, Pace];
    }
  }

  /** For every k below the number of words, some run is cancelled after exactly k of them. */
  lemma CancelAfterAnyWord(p: Plan, s0: State, k: nat) returns (run: seq<Step>)
    requires Init(s0) && s0.consumer.Waiting? && !s0.cancelled
    requires k < |p.words|
    ensures Complete(p, s0, run)
    ensures var s := After(p, s0, run);
      s.pc.Closed? && s.consumer.Done? && s.sent == FullStream(p)[..k]
  {
    var init := DeliverWords(p, s0, k);
    var s := After(p, s0, init);
    Legal4(p, s, Cancel, Head, Close, SeeClosed);
    LegalConcat(p, s0, init, [Cancel, Head, Close, SeeClosed]);
    run := init + [Cancel, Head, Close, SeeClosed];
    InitInv(p, s0);
    RunKeepsInv(p, s0, run);
    Progress(p, s0, run);
  }

  /** And a run that is never cancelled, to the end. */
  lemma DeliverAll(p: Plan, s0: State) returns (run: seq<Step>)
    requires Init(s0) && s0.consumer.Waiting? && !s0.cancelled
    ensures Whole(p, s0, run)
  {
    var init := DeliverWords(p, s0, |p.words|);
    var s := After(p, s0, init);
    InitInv(p, s0);
    RunKeepsInv(p, s0, init);
    Legal4(p, s, Head, SendFinal, Handle, Close);
    var rest := [Head, SendFinal, Handle, Close];
    LegalConcat(p, s0, init, rest);
    var closed := After(p, s0, init + rest);
    LegalCons(p, closed, SeeClosed, []);
    assert [SeeClosed] == [SeeClosed] + [];
    LegalConcat(p, s0, init + rest, [SeeClosed]);
    run := init + rest + [SeeClosed];
    RunKeepsInv(p, s0, run);
    Progress(p, s0, run);
  }

  /** And the one extra word after a cancellation does happen. */
  lemma OneWordAfterCancel(p: Plan, s0: State, k: nat) returns (before: seq<Step>, after: seq<Step>)
    requires Init(s0) && s0.consumer.Waiting? && !s0.cancelled
    requires k < |p.words|
    ensures Legal(p, s0, before) && Legal(p, After(p, s0, before), after)
    ensures After(p, s0, before).cancelled && WordsSent(p, After(p, s0, before)) == k
    ensures WordsSent(p, After(p, After(p, s0, before), after)) == k + 1
  {
    var init := DeliverWords(p, s0, k);
    var s := After(p, s0, init);
    var s1 := Apply(p, s, Head);
    LegalCons(p, s1, Cancel, []);
    LegalCons(p, s, Head, [Cancel]);
    assert [Head, Cancel] == [Head] + [Cancel] && [Cancel] == [Cancel] + [];
    LegalConcat(p, s0, init, [Head, Cancel]);
    before := init + [Head, Cancel];
    LegalCons(p, Apply(p, s1, Cancel), SendWord, []);
    after := [SendWord] + [];
  }

  // ---- Pacing ----

  const SECOND := 1_000_000_000

  /** The delay after each word: `time.Second / time.Duration(tps)`, or none. */
  function InterDelay(tokensPerSecond: int): nat {
    if tokensPerSecond > 0 then SECOND / tokensPerSecond else 0
  }

  /** The delay is the longest whole number of nanoseconds that fits the rate; without a rate there is none. */
  lemma InterDelayFits(tps: int)
    ensures tps <= 0 ==> InterDelay(tps) == 0
    ensures tps > 0 ==> tps * InterDelay(tps) <= 1_000_000_000 < tps * (InterDelay(tps) + 1)
  {
    if tps > 0 {
      assert SECOND == tps * (SECOND / tps) + SECOND % tps;
    }
  }

  /** n delays last at most n/tps seconds, and less than n nanoseconds short of that. */
  lemma PacingBounds(n: nat, tps: int)
    requires tps > 0
    ensures tps * (n * InterDelay(tps)) <= n * SECOND
    ensures n > 0 ==> n * (SECOND - tps) < tps * (n * InterDelay(tps))
  {
    var d, r := SECOND / tps, SECOND % tps;
    assert SECOND == tps * d + r;
    assert tps * (n * d) == n * (tps * d) == n * (SECOND - r);
    MulLess(n, SECOND - tps, SECOND - r);
    assert n * (SECOND - r) <= n * SECOND;
  }

  lemma MulLess(n: nat, x: int, y: int)
    requires x < y
    ensures n > 0 ==> n * x < n * y
  {
  }
}
