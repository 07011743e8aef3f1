/** The message history of the agent's reasoning loop: what it appends, and which lists it hands to
    the model. */
module ReactHistory {

  datatype Role = System | User | Assistant

  datatype Message = Message(role: Role, content: string)

  const WINDOW: nat := 12
  const TAIL: nat := 10

  /** How the formal answer that ends the loop turns out. */
  datatype Finish = Answered | Fails(error: string)

  /** What comes of one response: it cannot be used, it names tools to run, or it declares the work complete. */
  datatype Plan = Malformed(error: string) | Tools(observation: string) | Completes(finish: Finish)

  datatype Turn = Turn(canceled: bool, response: string, plan: Plan)

  /** User and assistant take turns, and the user has the last word. */
  predicate Turns(ms: seq<Message>) {
    |ms| % 2 == 1 && forall i | 0 <= i < |ms| :: ms[i].role == if i % 2 == 0 then User else Assistant
  }

  /** A system message and then turns. */
  predicate Conversation(h: seq<Message>) {
    h != [] && h[0].role == System && Turns(h[1..])
  }

  /** The same without the demand on the last word. */
  predicate Alternates(h: seq<Message>) {
    h != [] && h[0].role == System &&
    forall i | 1 <= i < |h| :: h[i].role == if i % 2 == 1 then User else Assistant
  }

  lemma ConversationIsEven(h: seq<Message>)
    ensures Conversation(h) <==> Alternates(h) && |h| % 2 == 0
  {
    if Conversation(h) {
      forall i | 1 <= i < |h| ensures h[i].role == if i % 2 == 1 then User else Assistant {
        assert h[i] == h[1..][i - 1];
      }
    }
  }

  /** The list that is given to the model when the history has grown long. */
  function Window(h: seq<Message>): seq<Message> {
    if |h| > WINDOW then [h[0], h[1]] + h[|h| - TAIL..] else h
  }

  /** The window keeps the system message, the first request and the end, repeats nothing, and is a
      conversation again. */
  lemma WindowIsConversation(h: seq<Message>)
    requires Conversation(h)
    ensures Conversation(Window(h)) && |Window(h)| <= WINDOW
    ensures Window(h)[0] == h[0] && Window(h)[1] == h[1] && Window(h)[|Window(h)| - 1] == h[|h| - 1]
    ensures |h| > WINDOW ==> |h| - TAIL >= 4 && |Window(h)| == WINDOW
    ensures |h| >= TAIL ==> Window(h)[|Window(h)| - TAIL..] == h[|h| - TAIL..]
  {
    ConversationIsEven(h);
    var w := Window(h);
    if |h| > WINDOW {
      forall i | 1 <= i < |w| ensures w[i].role == if i % 2 == 1 then User else Assistant {
        if i >= 2 {
          assert w[i] == h[|h| - TAIL + (i - 2)];
        }
      }
    }
    ConversationIsEven(w);
  }

  /** It is the parity that makes the cut fit: an alternating history longer than the window gives
      an alternating window exactly when it ends with the user. */
  lemma WindowNeedsParity(h: seq<Message>)
    requires Alternates(h) && |h| > WINDOW
    ensures Alternates(Window(h)) <==> |h| % 2 == 0
  {
    var w := Window(h);
    if |h| % 2 == 0 {
      ConversationIsEven(h);
      WindowIsConversation(h);
      ConversationIsEven(w);
    } else {
      assert w[2] == h[|h| - TAIL];
    }
  }

  /** What the next-step call adds to its own copy of the history before it drops the system
      message. */
  function NextStepInput(h: seq<Message>, prompt: string): seq<Message>
    requires h != []
  {
    AppendedUser(h, prompt)[1..]
  }

  /** `append_user_content`: extend the last message if it is the user's, or else add one. */
  function AppendedUser(h: seq<Message>, content: string): (r: seq<Message>)
    requires h != []
    ensures r != []
  {
    var last := h[|h| - 1];
    if last.role == User then h[..|h| - 1] + [Message(User, last.content + content)]
    else h + [Message(User, content)]
  }

  /** Nothing the user said is lost: the last message begins with what was there and ends with what
      was added, and the messages before it stay. */
  lemma AppendingAdds(h: seq<Message>, content: string)
    requires h != []
    ensures var r := AppendedUser(h, content);
      var said, was := r[|r| - 1], h[|h| - 1];
      && said.role == User && |content| <= |said.content|
      && said.content[|said.content| - |content|..] == content
      && (was.role == User ==>
            r[..|r| - 1] == h[..|h| - 1] && was.content <= said.content &&
            |said.content| == |was.content| + |content|)
      && (was.role != User ==> r[..|r| - 1] == h && said.content == content)
  {
  }

  lemma AppendingKeeps(h: seq<Message>, content: string)
    requires Conversation(h)
    ensures Conversation(AppendedUser(h, content)) && |AppendedUser(h, content)| == |h|
    ensures Turns(NextStepInput(h, content))
  {
    ConversationIsEven(h);
    ConversationIsEven(AppendedUser(h, content));
  }

  lemma RoundKeeps(h: seq<Message>, response: string, content: string)
    requires Conversation(h)
    ensures var r := AppendedUser(h + [Message(Assistant, response)], content);
      r == h + [Message(Assistant, response), Message(User, content)] && Conversation(r)
  {
    ConversationIsEven(h);
    var r := AppendedUser(h + [Message(Assistant, response)], content);
    assert r == h + [Message(Assistant, response), Message(User, content)];
    ConversationIsEven(r);
  }

  lemma MergeKeepsPrefix(before: seq<Message>, h: seq<Message>, content: string, shorter: bool)
    requires before != [] && h != []
    requires shorter ==> |before| < |h| && before[1..] <= h[1..]
    ensures shorter ==> before[1..] <= AppendedUser(h, content)[1..]
  {
    if !shorter {
      return;
    }
    var r := AppendedUser(h, content);
    forall i | 0 <= i < |before| - 1 ensures before[1..][i] == r[1..][i] {
      assert h[1..][i] == h[i + 1] == r[i + 1];
    }
  }

  lemma NotEmpty(h: seq<Message>)
    requires Conversation(h)
    ensures |h| >= 2
  {
  }

  // ----- what a run of the loop leaves -----

  /** The history after its first `n` messages holds every response in order, and each next-step
      call was given all that came before it. */
  ghost predicate Recorded(turn: nat -> Turn, prompt: string, h: seq<Message>, inputs: seq<seq<Message>>, n: nat) {
    forall j | 0 <= j < |inputs| :: RecordedAt(turn, prompt, h, inputs[j], n + 2 * j, j)
  }

  ghost predicate RecordedAt(turn: nat -> Turn, prompt: string, h: seq<Message>, input: seq<Message>, m: nat, j: nat) {
    2 <= m <= |h| - 2 && h[m] == Message(Assistant, turn(j).response) && input == NextStepInput(h[..m], prompt)
  }

  lemma NothingRecorded(turn: nat -> Turn, prompt: string, h: seq<Message>, n: nat)
    ensures Recorded(turn, prompt, h, [], n)
  {
  }

  lemma AppendingStays(h: seq<Message>, content: string)
    requires h != []
    ensures var r := AppendedUser(h, content);
      |r| >= |h| && forall k | 0 <= k < |h| - 1 :: r[k] == h[k]
  {
  }

  lemma NextStepIgnoresSystem(a: seq<Message>, b: seq<Message>, prompt: string)
    requires |a| == |b| >= 2 && a[1..] == b[1..]
    ensures NextStepInput(a, prompt) == NextStepInput(b, prompt)
  {
    assert forall i | 1 <= i < |a| :: a[i] == a[1..][i - 1] == b[1..][i - 1] == b[i];
  }

  lemma RecordedStays(turn: nat -> Turn, prompt: string, h: seq<Message>, h': seq<Message>,
                      inputs: seq<seq<Message>>, n: nat)
    requires Recorded(turn, prompt, h, inputs, n) && |h| <= |h'|
    requires forall i | 1 <= i < |h| - 1 :: h'[i] == h[i]
    ensures Recorded(turn, prompt, h', inputs, n)
  {
    hide NextStepInput;
    forall j | 0 <= j < |inputs| ensures RecordedAt(turn, prompt, h', inputs[j], n + 2 * j, j) {
      var m := n + 2 * j;
      assert RecordedAt(turn, prompt, h, inputs[j], m, j);
      assert h'[..m][1..] == h[..m][1..];
      NextStepIgnoresSystem(h'[..m], h[..m], prompt);
    }
  }

  lemma RecordedMore(turn: nat -> Turn, prompt: string, h: seq<Message>, h': seq<Message>,
                     inputs: seq<seq<Message>>, n: nat, told: string)
    requires Recorded(turn, prompt, h, inputs, n) && |h| == n + 2 * |inputs| && n >= 2 && h' != []
    requires h'[1..] == h[1..] + [Message(Assistant, turn(|inputs|).response), Message(User, told)]
    ensures Recorded(turn, prompt, h', inputs + [NextStepInput(h, prompt)], n)
  {
    hide NextStepInput;
    assert forall i | 1 <= i < |h| :: h'[i] == h'[1..][i - 1] == h[i];
    RecordedStays(turn, prompt, h, h', inputs, n);
    assert h'[|h|] == h'[1..][|h| - 1];
    assert h'[..|h|][1..] == h[1..];
    NextStepIgnoresSystem(h'[..|h|], h, prompt);
    var more := inputs + [NextStepInput(h, prompt)];
    assert RecordedAt(turn, prompt, h', more[|inputs|], n + 2 * |inputs|, |inputs|);
    forall j | 0 <= j < |inputs| ensures RecordedAt(turn, prompt, h', more[j], n + 2 * j, j) {
      assert RecordedAt(turn, prompt, h', inputs[j], n + 2 * j, j);
    }
  }

  class Agent {
    const maxRounds: int
    const turn: nat -> Turn
    const stepPrompt: string
    const completePrompt: string
    const finalPrompt: string
    const systemSuffix: string
    var hist: seq<Message>
    var stepInputs: seq<seq<Message>>   // the lists given to the next-step call
    var answerInputs: seq<seq<Message>> // the lists given to the formal answer

    constructor (hist: seq<Message>, maxRounds: int, turn: nat -> Turn, stepPrompt: string,
                 completePrompt: string, finalPrompt: string, systemSuffix: string)
      ensures this.hist == hist && this.maxRounds == maxRounds && this.turn == turn
      ensures this.stepPrompt == stepPrompt && stepInputs == [] && answerInputs == []
    {
      this.hist, this.maxRounds, this.turn := hist, maxRounds, turn;
      this.stepPrompt, this.completePrompt := stepPrompt, completePrompt;
      this.finalPrompt, this.systemSuffix := finalPrompt, systemSuffix;
      stepInputs, answerInputs := [], [];
    }

    /** Every list handed out so far has the roles that the model expects. */
    ghost predicate WellAddressed()
      reads this
    {
      && Conversation(hist)
      && (forall i | 0 <= i < |stepInputs| :: Turns(stepInputs[i]))
      && (forall i | 0 <= i < |answerInputs| :: Conversation(answerInputs[i]) && |answerInputs[i]| <= WINDOW)
    }

    method AppendUserContent(content: string)
      requires hist != []
      modifies this`hist
      ensures hist == AppendedUser(old(hist), content)
    {
      var last := hist[|hist| - 1];
      if last.role == User {
        hist := hist[|hist| - 1 := Message(User, last.content + content)];
      } else {
        hist := hist + [Message(User, content)];
      }
    }

    /** `complete`: extend the system message, and ask for the answer with the window. */
    method Complete()
      requires WellAddressed()
      modifies this`hist, this`answerInputs
      ensures WellAddressed() && |hist| == |old(hist)| && hist[1..] == old(hist)[1..]
      ensures hist[0] == Message(System, old(hist)[0].content + systemSuffix)
      ensures answerInputs == old(answerInputs) + [Window(hist)]
    {
      hist := hist[0 := Message(System, hist[0].content + systemSuffix)];
      assert hist[1..] == old(hist)[1..];
      WindowIsConversation(hist);
      answerInputs := answerInputs + [Window(hist)];
    }

    /** A response that does not end the work: append it, and what the user is told about it. */
    method Exchange(response: string, content: string)
      requires WellAddressed()
      modifies this`hist
      ensures WellAddressed() && |hist| == |old(hist)| + 2 && old(hist) <= hist
      ensures hist == old(hist) + [Message(Assistant, response), Message(User, content)]
    {
      RoundKeeps(hist, response, content);
      hist := hist + [Message(Assistant, response)];
      AppendUserContent(content);
    }

    /** A response that ends the work. When the answer fails, the error is added to the user's
        words and the loop goes on. */
    method Conclude(response: string, finish: Finish) returns (over: bool)
      requires WellAddressed()
      modifies this`hist, this`answerInputs
      ensures WellAddressed() && |hist| == |old(hist)| + 2 && old(hist)[1..] <= hist[1..]
      ensures over == finish.Answered?
      ensures var said := completePrompt + if finish.Fails? then finish.error else "";
        && hist[1..] == old(hist)[1..] + [Message(Assistant, response), Message(User, said)]
        && hist[0] == Message(System, old(hist)[0].content + systemSuffix)
        && answerInputs == old(answerInputs) +
             [Window([hist[0]] + old(hist)[1..] + [Message(Assistant, response), Message(User, completePrompt)])]
    {
      hide Conversation, Turns;
      ghost var h := hist;
      Exchange(response, completePrompt);
      assert h[1..] <= hist[1..] by {
        NotEmpty(h);
      }
      Complete();
      assert hist == [hist[0]] + h[1..] + [Message(Assistant, response), Message(User, completePrompt)];
      ghost var last := Message(User, completePrompt);
      assert hist[1..] == h[1..] + [Message(Assistant, response), last];
      over := finish.Answered?;
      if finish.Fails? {
        NotEmpty(h);
        AppendingKeeps(hist, finish.error);
        MergeKeepsPrefix(h, hist, finish.error, true);
        assert hist[|hist| - 1] == last;
        AppendUserContent(finish.error);
        assert hist == [hist[0]] + h[1..] + [Message(Assistant, response), Message(User, last.content + finish.error)];
        assert hist[1..] == h[1..] + [Message(Assistant, response), Message(User, last.content + finish.error)];
      } else {
        assert last.content + "" == last.content;
      }
    }

    /** What the user is told about a response. */
    function Told(plan: Plan): string {
      match plan
      case Malformed(error) => error
      case Tools(observation) => observation
      case Completes(finish) => completePrompt + if finish.Fails? then finish.error else ""
    }

    /** One pass of the loop. `over` is true when the loop is left. */
    method Round(i: nat) returns (over: bool)
      requires WellAddressed()
      modifies this`hist, this`stepInputs, this`answerInputs
      ensures WellAddressed() && old(hist)[1..] <= hist[1..]
      ensures |stepInputs| == |old(stepInputs)| + (if turn(i).canceled then 0 else 1)
      ensures !over ==> |hist| == |old(hist)| + 2
      ensures over <==> turn(i).canceled || turn(i).plan == Completes(Answered)
      ensures turn(i).canceled ==> hist == old(hist) && stepInputs == old(stepInputs)
      ensures !turn(i).canceled ==> stepInputs == old(stepInputs) + [NextStepInput(old(hist), stepPrompt)]
      ensures !turn(i).canceled ==>
        hist[1..] == old(hist)[1..] + [Message(Assistant, turn(i).response), Message(User, Told(turn(i).plan))]
      ensures turn(i).plan.Completes? || hist[0] == old(hist)[0]
    {
      NotEmpty(hist);
      var t := turn(i);
      if t.canceled {
        return true;
      }
      AppendingKeeps(hist, stepPrompt);
      stepInputs := stepInputs + [NextStepInput(hist, stepPrompt)];
      match t.plan
      case Malformed(error) =>
        Exchange(t.response, error);
        over := false;
      case Tools(observation) =>
        Exchange(t.response, observation);
        over := false;
      case Completes(finish) =>
        over := Conclude(t.response, finish);
    }

    /** The loop of `_react_with_tools_streamly_async_simple`, and the final answer after it. */
    method React(canceledAtEnd: bool)
      requires WellAddressed() && stepInputs == [] && answerInputs == []
      modifies this`hist, this`stepInputs, this`answerInputs
      ensures WellAddressed()
      ensures |stepInputs| <= (if maxRounds + 1 < 0 then 0 else maxRounds + 1)
      ensures maxRounds >= 0 ==> old(hist)[1..] <= hist[1..]
      ensures Recorded(turn, stepPrompt, hist, stepInputs, |old(hist)|)
    {
      hide Conversation, Turns, Recorded, NextStepInput, AppendedUser, Window;
      var i := 0;
      NotEmpty(hist);
      assert Recorded(turn, stepPrompt, hist, stepInputs, |old(hist)|) by {
        NothingRecorded(turn, stepPrompt, hist, |old(hist)|);
      }
      while i < maxRounds + 1
        invariant |hist| == |old(hist)| + 2 * i && |stepInputs| == i
        invariant WellAddressed() && old(hist)[1..] <= hist[1..]
        invariant i <= (if maxRounds + 1 < 0 then 0 else maxRounds + 1)
        invariant Recorded(turn, stepPrompt, hist, stepInputs, |old(hist)|)
      {
        ghost var h, inputs := hist, stepInputs;
        var over := Round(i);
        NotEmpty(hist);
        if !turn(i).canceled {
          RecordedMore(turn, stepPrompt, h, hist, inputs, |old(hist)|, Told(turn(i).plan));
        }
        if over {
          return;
        }
        i := i + 1;
      }
      if canceledAtEnd {
        return;
      }
      AppendingKeeps(hist, finalPrompt);
      ghost var h := hist;
      AppendUserContent(finalPrompt);
      MergeKeepsPrefix(old(hist), h, finalPrompt, maxRounds >= 0);
      AppendingStays(h, finalPrompt);
      Complete();
      assert forall k | 1 <= k < |h| - 1 :: hist[k] == hist[1..][k - 1] == h[k];
      RecordedStays(turn, stepPrompt, h, hist, stepInputs, |old(hist)|);
    }
  }
}
