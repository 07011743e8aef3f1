/** A tool-call session: callers put requests on one queue, one server loop takes them off and puts
    each result on the caller's own reply queue, callers may stop waiting, and closing drains what
    is left. All of it runs on one event loop, so a step lasts from one suspension to the next.
    Requests are numbered in the order in which they are submitted. */
module McpSession {
  import opened Wrappers

  type Request = nat

  /** What is put on a reply queue: a result, an exception object, or the notice of `close`. */
  datatype Answer = Result(value: nat) | Error(message: string) | Closing

  datatype Caller = Waiting | TimedOut | Got(answer: Answer)

  datatype State = State(
    submitted: nat,                 // how many requests were put on the queue
    queue: seq<Request>,
    serving: Option<Request>,       // taken off the queue and not yet answered
    running: bool,                  // the server loop has not ended
    closed: bool,
    replies: map<Request, seq<Answer>>, // everything ever put on each reply queue
    callers: map<Request, Caller>,
    taken: seq<Request>,            // logs: taken by the server, drained by close,
    drained: seq<Request>,
    answered: seq<Request>,         // answered by the server, and given up by it
    dropped: set<Request>)

  const INITIAL := State(0, [], None, true, false, map[], map[], [], [], [], {})

  /** One step of any party. A step that is not enabled leaves the state as it is. */
  datatype Step =
    | Submit             // `_call_mcp_server` up to its wait
    | Take               // the server loop gets a request
    | Reply(answer: Answer)
    | Interrupt          // the server loop is cancelled, in or between requests
    | Restart            // the error path starts the loop again
    | Leave              // the loop sees that the session is closed
    | Expire(r: Request) // a caller's timeout
    | Receive(r: Request)
    | Close

  /** The reply queues after every request in `rs` has got a closing notice. */
  function Notified(replies: map<Request, seq<Answer>>, rs: seq<Request>): map<Request, seq<Answer>> {
    if rs == [] then replies
    else
      var before := Notified(replies, rs[..|rs| - 1]);
      var r := rs[|rs| - 1];
      before[r := (if r in before then before[r] else []) + [Closing]]
  }

  function Apply(s: State, step: Step): State {
    match step
    case Submit =>
      if s.closed then s
      else
        s.(submitted := s.submitted + 1, queue := s.queue + [s.submitted],
           replies := s.replies[s.submitted := []], callers := s.callers[s.submitted := Waiting])
    case Take =>
      if !s.running || s.serving.Some? || s.queue == [] then s
      else s.(queue := s.queue[1..], serving := Some(s.queue[0]), taken := s.taken + [s.queue[0]])
    case Reply(answer) =>
      if s.serving.None? || s.serving.value !in s.replies || answer.Closing? then s
      else
        var r := s.serving.value;
        s.(serving := None, replies := s.replies[r := s.replies[r] + [answer]], answered := s.answered + [r])
    case Interrupt =>
      if !s.running then s
      else s.(running := false, serving := None,
              dropped := if s.serving.Some? then s.dropped + {s.serving.value} else s.dropped)
    case Restart => if s.running then s else s.(running := true)
    case Leave => if s.closed && s.serving.None? then s.(running := false) else s
    case Expire(r) =>
      if r in s.callers && s.callers[r].Waiting? then s.(callers := s.callers[r := TimedOut]) else s
    case Receive(r) =>
      if r in s.callers && s.callers[r].Waiting? && r in s.replies && s.replies[r] != [] then
        s.(callers := s.callers[r := Got(s.replies[r][0])])
      else s
    case Close =>
      if s.closed then s
      else s.(closed := true, queue := [], replies := Notified(s.replies, s.queue), drained := s.drained + s.queue)
  }

  function Trace(steps: seq<Step>): State {
    if steps == [] then INITIAL else Apply(Trace(steps[..|steps| - 1]), steps[|steps| - 1])
  }

  lemma TraceStep(steps: seq<Step>, step: Step)
    ensures Trace(steps + [step]) == Apply(Trace(steps), step)
  {
    assert (steps + [step])[..|steps|] == steps;
  }

  // ----- the invariant -----

  /** The requests from `lo` up to but not including `hi`. */
  function Upto(lo: nat, hi: nat): (r: seq<Request>)
    requires lo <= hi
    ensures |r| == hi - lo && forall i | 0 <= i < |r| :: r[i] == lo + i
  {
    seq(hi - lo, i => lo + i)
  }

  /** In how many places a request is: queued, in service, answered, dropped. */
  function Places(s: State, r: Request): nat {
    (if r in s.queue then 1 else 0) +
    (if s.serving == Some(r) then 1 else 0) +
    (if r in s.replies then |s.replies[r]| else 0) +
    (if r in s.dropped then 1 else 0)
  }

  ghost predicate Increasing(rs: seq<Request>) {
    forall i, j | 0 <= i < j < |rs| :: rs[i] < rs[j]
  }

  /** First in, first out: what was taken, then what was drained, then what still waits, is what
      was submitted. Draining only happens when the session closes, and nothing waits after that. */
  ghost predicate Fifo(s: State) {
    && s.taken + s.drained + s.queue == Upto(0, s.submitted)
    && (s.closed ==> s.queue == []) && (!s.closed ==> s.drained == [])
  }

  /** Each submitted request is in exactly one place, and no request that was not is in any. */
  ghost predicate Placed(s: State) {
    && s.replies.Keys == s.callers.Keys
    && (forall r: Request :: r in s.replies <==> r < s.submitted)
    && (forall r | r in s.dropped :: r < s.submitted)
    && (s.serving.Some? ==> s.taken != [] && s.serving.value == s.taken[|s.taken| - 1])
    && (forall r: Request | r < s.submitted :: Places(s, r) == 1)
  }

  /** The server answers in submission order, and only what it has taken. */
  ghost predicate Ordered(s: State) {
    && Increasing(s.answered)
    && (forall r | r in s.answered :: r < |s.taken|)
    && (s.serving.Some? ==> forall r | r in s.answered :: r < s.serving.value)
  }

  /** A caller that received something received the one reply to its own request. */
  ghost predicate Faithful(s: State) {
    forall r | r in s.callers && s.callers[r].Got? :: r in s.replies && s.replies[r] == [s.callers[r].answer]
  }

  ghost predicate Invariant(s: State) {
    Fifo(s) && Placed(s) && Ordered(s) && Faithful(s)
  }

  lemma QueueTail(s: State)
    requires Fifo(s)
    ensures s.drained == [] || s.queue == []
    ensures s.drained == [] ==> forall i | 0 <= i < |s.queue| :: s.queue[i] == |s.taken| + i
    ensures forall i | 0 <= i < |s.taken| :: s.taken[i] == i
    ensures |s.taken| + |s.drained| + |s.queue| == s.submitted
  {
    var all := s.taken + s.drained + s.queue;
    assert |all| == |Upto(0, s.submitted)|;
    forall i | 0 <= i < |s.taken| ensures s.taken[i] == i {
      assert all[i] == Upto(0, s.submitted)[i];
    }
    if s.drained == [] {
      forall i | 0 <= i < |s.queue| ensures s.queue[i] == |s.taken| + i {
        assert all[|s.taken| + i] == Upto(0, s.submitted)[|s.taken| + i];
      }
    }
  }

  lemma LastIsNew(rs: seq<Request>)
    requires Increasing(rs) && rs != []
    ensures Increasing(rs[..|rs| - 1]) && rs[|rs| - 1] !in rs[..|rs| - 1]
    ensures forall r :: r in rs <==> r in rs[..|rs| - 1] || r == rs[|rs| - 1]
  {
    assert rs == rs[..|rs| - 1] + [rs[|rs| - 1]];
  }

  lemma {:induction false} NotifiedExactly(replies: map<Request, seq<Answer>>, rs: seq<Request>)
    requires forall r | r in rs :: r in replies
    requires Increasing(rs)
    ensures Notified(replies, rs).Keys == replies.Keys
    ensures forall r | r in replies :: Notified(replies, rs)[r] == replies[r] + (if r in rs then [Closing] else [])
  {
    hide Increasing;
    if rs != [] {
      LastIsNew(rs);
      NotifiedExactly(replies, rs[..|rs| - 1]);
    }
  }

  lemma SubmitKeeps(s: State)
    requires Invariant(s)
    ensures Invariant(Apply(s, Submit))
  {
    var t := Apply(s, Submit);
    if !s.closed {
      QueueTail(s);
      assert t.taken + t.drained + t.queue == Upto(0, t.submitted) by {
        assert t.taken + t.drained + t.queue == (s.taken + s.drained + s.queue) + [s.submitted];
      }
      forall r: Request | r < t.submitted ensures Places(t, r) == 1 {
        if r < s.submitted {
          assert Places(s, r) == 1;
          assert r in t.queue <==> r in s.queue;
        } else {
          assert t.queue[|s.queue|] == r;
        }
      }
    }
  }

  lemma TakeKeeps(s: State)
    requires Invariant(s)
    ensures Invariant(Apply(s, Take))
  {
    var t := Apply(s, Take);
    if t != s {
      QueueTail(s);
      assert s.queue == [s.queue[0]] + s.queue[1..];
      assert t.taken + t.drained + t.queue == s.taken + s.drained + s.queue;
      forall r: Request | r < t.submitted ensures Places(t, r) == 1 {
        assert Places(s, r) == 1;
        assert r in s.queue <==> r == s.queue[0] || r in t.queue;
      }
    }
  }

  lemma ReplyKeeps(s: State, answer: Answer)
    requires Invariant(s)
    ensures Invariant(Apply(s, Reply(answer)))
  {
    var t := Apply(s, Reply(answer));
    if t != s {
      QueueTail(s);
      var r := s.serving.value;
      assert Places(s, r) == 1;
      forall q: Request | q < t.submitted ensures Places(t, q) == 1 {
        assert Places(s, q) == 1;
      }
      assert forall q | q in t.callers && t.callers[q].Got? :: q != r;
      assert forall i | 0 <= i < |s.answered| :: s.answered[i] in s.answered;
    }
  }

  lemma InterruptKeeps(s: State)
    requires Invariant(s)
    ensures Invariant(Apply(s, Interrupt))
  {
    var t := Apply(s, Interrupt);
    QueueTail(s);
    forall q: Request | q < t.submitted ensures Places(t, q) == 1 {
      assert Places(s, q) == 1;
    }
  }

  lemma CallerKeeps(s: State, step: Step)
    requires Invariant(s) && (step.Expire? || step.Receive? || step.Restart? || step.Leave?)
    ensures Invariant(Apply(s, step))
  {
    var t := Apply(s, step);
    forall q: Request | q < t.submitted ensures Places(t, q) == 1 {
      assert Places(s, q) == 1;
    }
    if step.Receive? && t != s {
      assert Places(s, step.r) == 1;
      assert |s.replies[step.r]| == 1;
    }
  }

  lemma CloseKeeps(s: State)
    requires Invariant(s)
    ensures Invariant(Apply(s, Close))
  {
    var t := Apply(s, Close);
    if t != s {
      QueueTail(s);
      NotifiedExactly(s.replies, s.queue);
      assert t.taken + t.drained + t.queue == s.taken + s.drained + s.queue;
      forall q: Request | q < t.submitted ensures Places(t, q) == 1 {
        assert Places(s, q) == 1;
      }
      forall q | q in t.callers && t.callers[q].Got? ensures t.replies[q] == [t.callers[q].answer] {
        assert Places(s, q) == 1;
      }
    }
  }

  /** Whatever the parties do, in whatever order, the session keeps its invariant. */
  lemma {:induction false} AlwaysInvariant(steps: seq<Step>)
    ensures Invariant(Trace(steps))
  {
    hide Invariant, Apply;
    if steps == [] {
      InitialInvariant();
    } else {
      var s, step := Trace(steps[..|steps| - 1]), steps[|steps| - 1];
      AlwaysInvariant(steps[..|steps| - 1]);
      match step
      case Submit => SubmitKeeps(s);
      case Take => TakeKeeps(s);
      case Reply(answer) => ReplyKeeps(s, answer);
      case Interrupt => InterruptKeeps(s);
      case Close => CloseKeeps(s);
      case _ => CallerKeeps(s, step);
    }
  }

  lemma InitialInvariant()
    ensures Invariant(INITIAL)
  {
  }

  // ----- what callers may rely on -----

  /** No reply queue ever receives two replies, every request is in exactly one place, and results
      come back in the order of submission. */
  lemma EachRequestOnce(steps: seq<Step>, r: Request)
    requires r < Trace(steps).submitted
    ensures Places(Trace(steps), r) == 1 && r in Trace(steps).replies && |Trace(steps).replies[r]| <= 1
    ensures Increasing(Trace(steps).answered)
  {
    AlwaysInvariant(steps);
  }

  /** Once closed, always closed, and the queue stays empty: nothing is ever put on it again. */
  lemma {:induction false} ClosedStaysEmpty(steps: seq<Step>, more: seq<Step>)
    requires Trace(steps).closed
    ensures Trace(steps + more).closed && Trace(steps + more).queue == []
    ensures Trace(steps + more).submitted == Trace(steps).submitted
    decreases |more|
  {
    AlwaysInvariant(steps + more);
    if more == [] {
      assert steps + more == steps;
    } else {
      var init := more[..|more| - 1];
      assert (steps + more)[..|steps + more| - 1] == steps + init;
      ClosedStaysEmpty(steps, init);
    }
  }

  /** Closing refuses every later request, and stops the loop as soon as it is not serving. */
  lemma ClosingRefuses(steps: seq<Step>, more: seq<Step>)
    ensures var t := Trace(steps + [Close] + more);
      t.closed && t.queue == [] && t.submitted == Trace(steps).submitted
    ensures Trace(steps).serving.None? ==> !Trace(steps + [Close, Leave]).running
  {
    hide Trace, Notified;
    TraceStep(steps, Close);
    TraceStep(steps + [Close], Leave);
    assert steps + [Close, Leave] == steps + [Close] + [Leave];
    ClosedStaysEmpty(steps + [Close], more);
  }

  /** A request that was waiting when the session closed has its closing notice; one that was in
      service can still be answered, or is dropped. */
  lemma ClosingAnswersTheQueue(steps: seq<Step>, r: Request)
    requires !Trace(steps).closed && r in Trace(steps).queue
    ensures r in Trace(steps + [Close]).replies && Trace(steps + [Close]).replies[r] == [Closing]
  {
    hide Invariant, Apply;
    AlwaysInvariant(steps);
    TraceStep(steps, Close);
    ClosingNotifies(Trace(steps), r);
  }

  lemma ClosingNotifies(s: State, r: Request)
    requires Invariant(s) && !s.closed && r in s.queue
    ensures r in Apply(s, Close).replies && Apply(s, Close).replies[r] == [Closing]
  {
    QueueTail(s);
    hide Ordered, Faithful, Fifo;
    NotifiedExactly(s.replies, s.queue);
    hide Notified;
    assert Places(s, r) == 1;
  }

  /** How `_call_mcp_server` hands an answer to its caller: only exception objects are raised. */
  datatype Seen = Returned(answer: Answer) | Raised(message: string)

  function SeenBy(answer: Answer): Seen {
    if answer.Error? then Raised(answer.message) else Returned(answer)
  }

  /** Closing notices and drained requests go together. */
  ghost predicate Noticed(s: State) {
    forall r | r in s.replies ::
      (Closing in s.replies[r] <==> r in s.drained) && (r in s.drained ==> s.replies[r] == [Closing])
  }

  lemma NoticedSubmit(s: State)
    requires Invariant(s) && Noticed(s)
    ensures Noticed(Apply(s, Submit))
  {
    hide Ordered, Faithful, Places;
    assert s.submitted !in s.replies;
    forall r | r in s.drained ensures r < s.submitted {
      assert r in s.taken + s.drained + s.queue;
    }
  }

  lemma NoticedReply(s: State, answer: Answer)
    requires Invariant(s) && Noticed(s)
    ensures Noticed(Apply(s, Reply(answer)))
  {
    hide Ordered, Faithful, Fifo;
    if s.serving.Some? && s.serving.value in s.replies {
      assert s.serving.value < s.submitted;
      assert Places(s, s.serving.value) == 1;
    }
  }

  lemma NoticedClose(s: State)
    requires Invariant(s) && Noticed(s)
    ensures Noticed(Apply(s, Close))
  {
    QueueTail(s);
    hide Ordered, Faithful;
    if !s.closed {
      NotifiedExactly(s.replies, s.queue);
      hide Notified;
      assert forall r | r in s.queue :: Places(s, r) == 1;
    }
  }

  lemma NoticedStep(s: State, step: Step)
    requires Invariant(s) && Noticed(s)
    ensures Noticed(Apply(s, step))
  {
    hide Invariant;
    match step
    case Submit => NoticedSubmit(s);
    case Reply(answer) => NoticedReply(s, answer);
    case Close => NoticedClose(s);
    case _ =>
  }

  /** Over every trace, the closing notice goes exactly to the requests that closing drained from
      the queue, and is all they get. */
  lemma {:induction false} ClosingGoesToTheDrained(steps: seq<Step>)
    ensures Noticed(Trace(steps))
  {
    hide Invariant, Apply;
    if steps != [] {
      AlwaysInvariant(steps[..|steps| - 1]);
      ClosingGoesToTheDrained(steps[..|steps| - 1]);
      NoticedStep(Trace(steps[..|steps| - 1]), steps[|steps| - 1]);
    }
  }

  /** The notice that `close` sends is a cancellation object, which the test for exceptions does
      not cover: a caller that was still queued gets it returned as if it were a result. The close
      of the source also stops the event loop, so such a caller has one more turn to see it. */
  lemma ClosingIsReturned(steps: seq<Step>, r: Request)
    requires !Trace(steps).closed && r in Trace(steps).queue
    requires r in Trace(steps).callers && Trace(steps).callers[r].Waiting?
    ensures var t := Trace(steps + [Close, Receive(r)]);
      r in t.callers && t.callers[r] == Got(Closing) && SeenBy(t.callers[r].answer) == Returned(Closing)
  {
    hide Invariant, Notified, Trace;
    ClosingAnswersTheQueue(steps, r);
    TraceStep(steps, Close);
    TraceStep(steps + [Close], Receive(r));
    assert steps + [Close, Receive(r)] == steps + [Close] + [Receive(r)];
  }

  /** And only such a caller does: whatever a caller got is the closing notice exactly when its
      request was drained. */
  lemma ClosingIsReturnedToTheDrained(steps: seq<Step>, r: Request)
    requires r in Trace(steps).callers && Trace(steps).callers[r].Got?
    ensures SeenBy(Trace(steps).callers[r].answer) == Returned(Closing) <==> r in Trace(steps).drained
  {
    AlwaysInvariant(steps);
    ClosingGoesToTheDrained(steps);
    var s := Trace(steps);
    assert s.replies[r] == [s.callers[r].answer];
    assert s.replies[r][0] == s.callers[r].answer;
  }

  // ----- which answer a caller gets -----

  /** Step `i` answered request `r` with `a`: the server had taken `r` off the queue just before. */
  ghost predicate AnsweredAt(steps: seq<Step>, i: nat, r: Request, a: Answer) {
    i < |steps| && steps[i] == Reply(a) && Trace(steps[..i]).serving == Some(r)
  }

  /** A reply queue holds one answer, if the server answered, or the notice, if closing drained the
      request, or else nothing. */
  ghost predicate Content(s: State, r: Request) {
    r in s.replies ==>
      if r in s.answered then |s.replies[r]| == 1 && r !in s.drained && s.replies[r][0] != Closing
      else s.replies[r] == if r in s.drained then [Closing] else []
  }

  /** An answer is there from before, or was just given by the server, to the request in service. */
  ghost predicate Given(s: State, step: Step, t: State, r: Request) {
    && Content(t, r)
    && (r in t.replies && r in t.answered ==>
          || (r in s.replies && r in s.answered && t.replies[r] == s.replies[r])
          || (step.Reply? && s.serving == Some(r) && t.replies[r] == [step.answer]))
  }

  lemma GivenSubmit(s: State, r: Request)
    requires Invariant(s) && Content(s, r)
    ensures Given(s, Submit, Apply(s, Submit), r)
  {
    QueueTail(s);
    hide Faithful, Increasing;
    assert s.submitted !in s.answered;
    forall q | q in s.drained ensures q < s.submitted {
      assert q in s.taken + s.drained + s.queue;
    }
  }

  lemma GivenReply(s: State, answer: Answer, r: Request)
    requires Invariant(s) && Content(s, r) && Noticed(s)
    ensures Given(s, Reply(answer), Apply(s, Reply(answer)), r)
  {
    hide Ordered, Faithful, Fifo;
    assert r < s.submitted ==> Places(s, r) == 1;
  }

  lemma GivenClose(s: State, r: Request)
    requires Invariant(s) && Content(s, r)
    ensures Given(s, Close, Apply(s, Close), r)
  {
    QueueTail(s);
    hide Ordered, Faithful, Fifo;
    if !s.closed {
      NotifiedExactly(s.replies, s.queue);
      hide Notified;
      assert r in s.replies ==> Places(s, r) == 1;
    }
  }

  lemma GivenStep(s: State, step: Step, r: Request)
    requires Invariant(s) && Content(s, r) && Noticed(s)
    ensures Given(s, step, Apply(s, step), r)
  {
    hide Invariant, Noticed;
    match step
    case Submit => GivenSubmit(s, r);
    case Reply(answer) => GivenReply(s, answer, r);
    case Close => GivenClose(s, r);
    case _ =>
  }

  /** Over every trace each answer on a reply queue is that of the step that served the request. */
  lemma {:induction false} EachReplyHasItsStep(steps: seq<Step>, r: Request)
    ensures Content(Trace(steps), r)
    ensures r in Trace(steps).replies && r in Trace(steps).answered ==>
      exists i: nat, a :: Trace(steps).replies[r] == [a] && AnsweredAt(steps, i, r, a)
  {
    hide Invariant, Apply, Noticed, Content;
    if steps == [] {
      assert Content(Trace(steps), r) by {
        NoReplyYet(r);
      }
    } else {
      var n := |steps| - 1;
      var s, t := Trace(steps[..n]), Trace(steps);
      EachReplyHasItsStep(steps[..n], r);
      AlwaysInvariant(steps[..n]);
      ClosingGoesToTheDrained(steps[..n]);
      GivenStep(s, steps[n], r);
      if r in t.replies && r in t.answered {
        if r in s.replies && r in s.answered && t.replies[r] == s.replies[r] {
          var i: nat, a :| s.replies[r] == [a] && AnsweredAt(steps[..n], i, r, a);
          assert steps[..n][..i] == steps[..i];
          assert AnsweredAt(steps, i, r, a);
        } else {
          assert AnsweredAt(steps, n, r, steps[n].answer);
        }
      }
    }
  }

  lemma NoReplyYet(r: Request)
    ensures Content(INITIAL, r)
  {
  }

  /** What a caller gets is the closing notice, if its request was drained, or else the answer of
      the step that served this very request; an error is raised with its own message, everything
      else is returned as it is. */
  lemma CallersGetTheirAnswer(steps: seq<Step>, r: Request)
    requires r in Trace(steps).callers && Trace(steps).callers[r].Got?
    ensures var a := Trace(steps).callers[r].answer;
      && (a == Closing <==> r in Trace(steps).drained)
      && (a != Closing ==> exists i: nat :: AnsweredAt(steps, i, r, a))
      && (a.Error? ==> SeenBy(a) == Raised(a.message)) && (!a.Error? ==> SeenBy(a) == Returned(a))
  {
    hide Apply, Trace, Places, Fifo, Ordered;
    AlwaysInvariant(steps);
    EachReplyHasItsStep(steps, r);
    assert Trace(steps).replies[r] == [Trace(steps).callers[r].answer];
    assert Trace(steps).replies[r][0] == Trace(steps).callers[r].answer;
  }

  /** And it does get it: a request put on an open, empty queue is taken, answered and received. */
  lemma RequestsAreServed(steps: seq<Step>, a: Answer)
    requires !Trace(steps).closed && a != Closing
    requires Trace(steps).running && Trace(steps).serving.None? && Trace(steps).queue == []
    ensures var s, t := Trace(steps), Trace(steps + [Submit, Take, Reply(a), Receive(Trace(steps).submitted)]);
      && t.submitted == s.submitted + 1 && t.queue == [] && t.serving == None && t.running
      && t.taken == s.taken + [s.submitted] && t.answered == s.answered + [s.submitted]
      && t.replies == s.replies[s.submitted := [a]] && t.callers == s.callers[s.submitted := Got(a)]
  {
    hide Trace;
    var s, r := Trace(steps), Trace(steps).submitted;
    TraceStep(steps, Submit);
    var s1 := Trace(steps + [Submit]);
    assert s1.queue == [r];
    TraceStep(steps + [Submit], Take);
    var s2 := Trace(steps + [Submit] + [Take]);
    assert s2.serving == Some(r) && s2.queue == [] && s2.replies[r] == [];
    TraceStep(steps + [Submit] + [Take], Reply(a));
    var s3 := Trace(steps + [Submit] + [Take] + [Reply(a)]);
    assert [] + [a] == [a] && s2.replies == s.replies[r := []];
    assert s3.replies == s.replies[r := []][r := [a]];
    assert s3.replies == s.replies[r := [a]] && s3.callers == s.callers[r := Waiting];
    TraceStep(steps + [Submit] + [Take] + [Reply(a)], Receive(r));
    assert steps + [Submit, Take, Reply(a), Receive(r)] == steps + [Submit] + [Take] + [Reply(a)] + [Receive(r)];
  }

  /** A caller that waits no longer has its answer, or its timeout, for good. */
  lemma {:induction false} CallersAreFinal(steps: seq<Step>, more: seq<Step>, r: Request)
    requires r in Trace(steps).callers && !Trace(steps).callers[r].Waiting?
    ensures r in Trace(steps + more).callers && Trace(steps + more).callers[r] == Trace(steps).callers[r]
    decreases |more|
  {
    hide Apply, Invariant;
    if more == [] {
      assert steps + more == steps;
    } else {
      var init := more[..|more| - 1];
      assert (steps + more)[..|steps + more| - 1] == steps + init;
      CallersAreFinal(steps, init, r);
      AlwaysInvariant(steps + init);
      CallerStays(Trace(steps + init), more[|more| - 1], r);
    }
  }

  lemma CallerStays(s: State, step: Step, r: Request)
    requires Invariant(s) && r in s.callers && !s.callers[r].Waiting?
    ensures r in Apply(s, step).callers && Apply(s, step).callers[r] == s.callers[r]
  {
    hide Fifo, Ordered, Faithful, Places, Notified;
  }

  /** A caller whose time is up while it waits never gets an answer, whatever happens later. */
  lemma TimeoutsAreFinal(steps: seq<Step>, more: seq<Step>, r: Request)
    requires r in Trace(steps).callers && Trace(steps).callers[r].Waiting?
    ensures var t := Trace(steps + [Expire(r)] + more);
      r in t.callers && t.callers[r] == TimedOut
  {
    hide Trace;
    TraceStep(steps, Expire(r));
    CallersAreFinal(steps + [Expire(r)], more, r);
  }

  /** A request in service when the loop is cancelled is lost: nobody ever answers it. */
  lemma {:induction false} InterruptLosesTheRequest(steps: seq<Step>, more: seq<Step>, r: Request)
    requires Trace(steps).running && Trace(steps).serving == Some(r)
    ensures var t := Trace(steps + [Interrupt] + more);
      r in t.dropped && r in t.replies && t.replies[r] == [] && !(r in t.callers && t.callers[r].Got?)
    decreases |more|
  {
    AlwaysInvariant(steps + [Interrupt] + more);
    hide Trace;
    DroppedAfter(steps, more, r);
    var t := Trace(steps + [Interrupt] + more);
    assert Places(t, r) == 1;
  }

  lemma {:induction false} DroppedAfter(steps: seq<Step>, more: seq<Step>, r: Request)
    requires Trace(steps).running && Trace(steps).serving == Some(r)
    ensures r in Trace(steps + [Interrupt] + more).dropped
    decreases |more|
  {
    hide Trace;
    TraceStep(steps, Interrupt);
    if more == [] {
      assert steps + [Interrupt] + more == steps + [Interrupt];
    } else {
      var init, step := more[..|more| - 1], more[|more| - 1];
      DroppedAfter(steps, init, r);
      TraceStep(steps + [Interrupt] + init, step);
      assert steps + [Interrupt] + more == steps + [Interrupt] + init + [step];
    }
  }

  // ----- the session object -----

  /** How the call to the tool server ends: with a result or an exception object, or by
      cancellation of the server loop. */
  datatype Outcome = Done(answer: Answer) | Cancelled

  class Session {
    var submitted: nat
    var queue: seq<Request>
    var serving: Option<Request>
    var running: bool
    var closed: bool
    var replies: map<Request, seq<Answer>>
    var callers: map<Request, Caller>
    ghost var taken: seq<Request>
    ghost var drained: seq<Request>
    ghost var answered: seq<Request>
    ghost var dropped: set<Request>

    ghost function Now(): State
      reads this
    {
      State(submitted, queue, serving, running, closed, replies, callers, taken, drained, answered, dropped)
    }

    constructor ()
      ensures Now() == INITIAL
    {
      submitted, queue, serving, running, closed := 0, [], None, true, false;
      replies, callers, taken, drained, answered, dropped := map[], map[], [], [], [], {};
    }

    /** `_call_mcp_server` up to its wait; `None` when the session is closed. */
    method Enqueue() returns (r: Option<Request>)
      modifies this
      ensures Now() == Apply(old(Now()), Submit)
      ensures r == if old(closed) then None else Some(old(submitted))
    {
      if closed {
        return None;
      }
      r := Some(submitted);
      replies, callers := replies[submitted := []], callers[submitted := Waiting];
      queue := queue + [submitted];
      submitted := submitted + 1;
    }

    /** `_queue.get()` when a request is waiting. */
    method Get() returns (r: Request)
      requires Invariant(Now()) && running && serving.None? && queue != []
      modifies this`queue, this`serving, this`taken
      ensures Now() == Apply(old(Now()), Take) && Invariant(Now()) && serving == Some(r)
    {
      hide Invariant;
      TakeKeeps(Now());
      r := queue[0];
      queue, serving, taken := queue[1..], Some(r), taken + [r];
    }

    /** Serve request `r`: put the answer on its reply queue, unless the loop is cancelled. */
    method Serve(r: Request, outcome: Outcome) returns (stopped: bool)
      requires Invariant(Now()) && running && serving == Some(r) && (outcome.Done? ==> !outcome.answer.Closing?)
      modifies this`replies, this`serving, this`answered, this`running, this`dropped
      ensures Invariant(Now()) && stopped == outcome.Cancelled?
      ensures Now() == Apply(old(Now()), if outcome.Done? then Reply(outcome.answer) else Interrupt)
    {
      TakenIsKnown(Now());
      hide Invariant;
      match outcome
      case Cancelled =>
        InterruptKeeps(Now());
        running, serving, dropped := false, None, dropped + {r};
        stopped := true;
      case Done(answer) =>
        ReplyKeeps(Now(), answer);
        replies := replies[r := replies[r] + [answer]];
        serving, answered := None, answered + [r];
        stopped := false;
    }

    /** One pass of `_process_mcp_tasks`: look at the flag, wait for a request, serve it. */
    method Process(outcome: Outcome) returns (stopped: bool)
      requires Invariant(Now()) && running && serving.None? && (outcome.Done? ==> !outcome.answer.Closing?)
      modifies this
      ensures Invariant(Now())
      ensures old(closed) ==> stopped && Now() == Apply(old(Now()), Leave)
      ensures !old(closed) && old(queue) == [] ==> !stopped && Now() == old(Now())
      ensures !old(closed) && old(queue) != [] ==>
        stopped == outcome.Cancelled? &&
        Now() == Apply(Apply(old(Now()), Take), if outcome.Done? then Reply(outcome.answer) else Interrupt)
    {
      hide Invariant;
      if closed {
        CallerKeeps(Now(), Leave);
        running := false;
        return true;
      }
      if queue == [] {
        return false;
      }
      var r := Get();
      stopped := Serve(r, outcome);
    }

    /** The loop of `close` that empties the queue. */
    method Drain()
      modifies this`queue, this`replies, this`drained
      ensures queue == [] && drained == old(drained) + old(queue)
      ensures replies == Notified(old(replies), old(queue))
    {
      ghost var n := 0;
      while queue != []
        invariant n <= |old(queue)| && queue == old(queue)[n..]
        invariant drained == old(drained) + old(queue)[..n]
        invariant replies == Notified(old(replies), old(queue)[..n])
        decreases |queue|
      {
        var r := queue[0];
        assert old(queue)[..n + 1] == old(queue)[..n] + [r];
        assert old(queue)[..n + 1][..n] == old(queue)[..n];
        queue := queue[1..];
        replies := replies[r := (if r in replies then replies[r] else []) + [Closing]];
        drained := drained + [r];
        n := n + 1;
      }
      assert old(queue)[..n] == old(queue);
    }

    /** `close`: mark the session closed, and answer whatever is queued with a closing notice. */
    method Close()
      requires Invariant(Now())
      modifies this
      ensures Now() == Apply(old(Now()), Step.Close) && Invariant(Now())
    {
      hide Invariant, Notified;
      CloseKeeps(Now());
      if closed {
        return;
      }
      closed := true;
      Drain();
    }
  }

  lemma TakenIsKnown(s: State)
    requires Invariant(s) && s.serving.Some?
    ensures s.serving.value in s.replies
  {
    QueueTail(s);
  }
}
