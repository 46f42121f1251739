/** How an agent step ends: each outcome in terms of the model's turns, the policy, the gate and the limits alone. */
module AgentOutcomes {
  import opened Wrappers
  import opened AgentLoop
  import Budget

  // ---- what a finished loop leaves ----

  /** The calls of the model's last reply. */
  function LastReply(messages: seq<Message>): seq<ToolCall> {
    if messages == [] then []
    else
      var last := messages[|messages| - 1];
      if last.Ai? then last.calls else LastReply(messages[..|messages| - 1])
  }

  /** A limit was reached by the spend so far, and a call of the last reply was executed all the same. */
  predicate OverBudget(env: Env, s: State) {
    Budget.Exhausted(env.budget, s.tokens, s.usd).Some? && |s.records| + |LastReply(s.messages)| > |Calls(s.messages)|
  }

  /** A call asked for was not executed: it is the one after the last row. */
  predicate StopsAtCall(env: Env, s: State) {
    !OverBudget(env, s) && |s.records| < |Calls(s.messages)|
  }

  /** The same, and the call was within the limit on calls. */
  predicate StopsAtPolicy(env: Env, s: State) {
    StopsAtCall(env, s) && |s.records| < env.maxToolCalls
  }

  function StoppedSkill(env: Env, s: State): string
    requires StopsAtCall(env, s)
  {
    var tc := Calls(s.messages)[|s.records|];
    if tc.name in env.wire then env.wire[tc.name] else tc.name
  }

  function StoppedInput(env: Env, s: State): string
    requires StopsAtCall(env, s)
  {
    Calls(s.messages)[|s.records|].args
  }

  /** The last turn was a reply without calls. */
  predicate Answered(env: Env, s: State) {
    s.iteration > 0 && env.turn(s.iteration - 1).Reply? && env.turn(s.iteration - 1).calls == []
  }

  /** Every call asked for was executed, and the model did not answer. */
  predicate StopsAtModel(env: Env, s: State) {
    !OverBudget(env, s) && |s.records| >= |Calls(s.messages)| && !Answered(env, s)
  }

  /** Each outcome exactly when its reason holds. */
  ghost predicate EndsRightly(env: Env, s: State) {
    && (s.outcome == None <==> Answered(env, s))
    && (forall limit :: s.outcome == Some(BudgetExhausted(limit)) <==>
          OverBudget(env, s) && Budget.Exhausted(env.budget, s.tokens, s.usd) == Some(limit))
    && (s.outcome == Some(Failed(ToolCallBudget)) <==> StopsAtCall(env, s) && !StopsAtPolicy(env, s))
    && (s.outcome == Some(GatedReject) <==>
          StopsAtPolicy(env, s)
          && (env.policy(StoppedSkill(env, s), StoppedInput(env, s)) == HardBlock
              || (env.policy(StoppedSkill(env, s), StoppedInput(env, s)) == SoftBlock && env.verdict(|s.records| + 1) == Rejected)))
    && (s.outcome == Some(GatePending) <==>
          StopsAtPolicy(env, s)
          && env.policy(StoppedSkill(env, s), StoppedInput(env, s)) == SoftBlock && env.verdict(|s.records| + 1) == Pending)
    && (s.outcome == Some(Cancelled) <==> StopsAtModel(env, s) && env.turn(s.iteration).Abort?)
    && (s.outcome == Some(Failed(IterationBudget)) <==>
          StopsAtModel(env, s) && !env.turn(s.iteration).Abort? && s.iteration >= env.maxIters)
    && (forall why :: s.outcome == Some(Failed(ProviderMissing(why))) <==>
          StopsAtModel(env, s) && s.iteration < env.maxIters && env.turn(s.iteration) == NoProvider(why))
    && (s.outcome == Some(RateLimited) <==> StopsAtModel(env, s) && s.iteration < env.maxIters && env.turn(s.iteration).Throttled?)
    && (forall why :: s.outcome == Some(Failed(ModelError(why))) <==>
          StopsAtModel(env, s) && s.iteration < env.maxIters && env.turn(s.iteration) == Broken(why))
  }

  // ---- while the loop runs ----

  /** The last reply is the last turn taken; after a batch nothing is exhausted. */
  ghost predicate Replied(env: Env, s: State) {
    && (s.iteration == 0 ==> s.node == Agent && Calls(s.messages) == [] && LastReply(s.messages) == [] && s.records == [])
    && (s.node != End && s.iteration > 0 ==>
          env.turn(s.iteration - 1).Reply? && env.turn(s.iteration - 1).calls == LastReply(s.messages) != [])
    && (s.node == Agent && s.iteration > 0 ==> Budget.Exhausted(env.budget, s.tokens, s.usd) == None)
    && (s.node == Tools ==> s.messages != [] && s.messages[|s.messages| - 1].Ai?)
  }

  ghost predicate Going(env: Env, s: State) {
    s.node != End ==> AskedSoFar(env, s) && Replied(env, s)
  }

  lemma {:induction false} ToolMessagesKeepReply(messages: seq<Message>, answers: seq<Message>)
    requires forall m <- answers :: m.Tool?
    ensures LastReply(messages + answers) == LastReply(messages)
  {
    if answers == [] {
      assert messages + answers == messages;
    } else {
      var front, last := answers[..|answers| - 1], answers[|answers| - 1];
      assert (messages + answers)[..|messages + answers| - 1] == messages + front;
      assert last in answers;
      ToolMessagesKeepReply(messages, front);
    }
  }

  lemma NewReply(messages: seq<Message>, calls: seq<ToolCall>)
    ensures LastReply(messages + [Ai(calls)]) == calls && Calls(messages + [Ai(calls)]) == Calls(messages) + calls
  {
    ReplyAddsCalls(messages, Ai(calls));
  }

  /** The call that stops a batch: those before it were executed, one by one. */
  lemma {:induction false} BatchStopsAt(env: Env, spent: Option<Budget.Reason>, b: Batch, calls: seq<ToolCall>, n: nat) returns (k: nat)
    requires n <= |calls| && b.outcome.None? && b.made == |b.records| && RunCalls(env, spent, b, calls, n).outcome.Some?
    ensures k < n && RunCalls(env, spent, b, calls, k).outcome.None?
    ensures RunCalls(env, spent, b, calls, k).made == |RunCalls(env, spent, b, calls, k).records| == |b.records| + k
    ensures RunCalls(env, spent, b, calls, n) == OneCall(env, spent, RunCalls(env, spent, b, calls, k), calls[k])
  {
    hide OneCall;
    var before := RunCalls(env, spent, b, calls, n - 1);
    if before.outcome.Some? {
      k := BatchStopsAt(env, spent, b, calls, n - 1);
    } else {
      k := n - 1;
      UnstoppedRows(env, spent, b, calls, k);
    }
  }

  lemma {:induction false} UnstoppedRows(env: Env, spent: Option<Budget.Reason>, b: Batch, calls: seq<ToolCall>, n: nat)
    requires n <= |calls| && b.outcome.None? && b.made == |b.records| && RunCalls(env, spent, b, calls, n).outcome.None?
    ensures RunCalls(env, spent, b, calls, n).made == |RunCalls(env, spent, b, calls, n).records| == |b.records| + n
    ensures n > 0 ==> spent == None
  {
    if n > 0 { UnstoppedRows(env, spent, b, calls, n - 1); }
  }

  lemma ToolsKeepGoing(env: Env, s: State)
    requires s.node == Tools && Going(env, s) && ToolsNode(env, s).node == Agent
    ensures Replied(env, ToolsNode(env, s))
  {
    hide RunCalls;
    var calls := LastCalls(s.messages);
    var b := CallsAfter(env, s, |calls|);
    UnstoppedRows(env, Spent(env, s), FirstBatch(s), calls, |calls|);
    AnswersAreTools(env, s);
    ToolMessagesKeepReply(s.messages, b.answers);
  }

  lemma AnswersAreTools(env: Env, s: State)
    requires s.node == Tools && AskedSoFar(env, s) && Replied(env, s)
    ensures forall m <- CallsAfter(env, s, |LastCalls(s.messages)|).answers :: m.Tool?
  {
    hide RunCalls, SoftBlocked;
    var calls := LastCalls(s.messages);
    var before := Calls(s.messages[..|s.messages| - 1]);
    assert Calls(s.messages) == before + calls && (before + calls)[..|before|] == before;
    BatchIsAsked(env, Spent(env, s), FirstBatch(s), before, calls, |calls|);
  }

  lemma AgentKeepsGoing(env: Env, s: State)
    requires s.node == Agent && Going(env, s)
    ensures AgentNode(env, s).node != End ==> Replied(env, AgentNode(env, s))
  {
    var t := env.turn(s.iteration);
    if t.Reply? { NewReply(s.messages, t.calls); }
  }

  lemma {:induction false} RunGoes(env: Env, run: seq<State>, n: nat)
    requires IsRun(env, run) && n < |run|
    ensures Going(env, run[n])
  {
    RunAsksExactly(env, run, n);
    if n > 0 {
      hide AskedSoFar, Replied, ToolsNode, AgentNode;
      RunGoes(env, run, n - 1);
      assert StepAt(env, run, n - 1);
      var s := run[n - 1];
      if run[n].node != End {
        if s.node == Agent { AgentKeepsGoing(env, s); } else { ToolsGo(env, s); ToolsKeepGoing(env, s); }
      }
    } else {
      assert [System, Human][..1] == [System] && [System][..0] == [];
      assert LastReply([System, Human]) == LastReply([System]) == [] && Calls([System]) == [] && Calls([System, Human]) == [];
    }
  }

  lemma ToolsGo(env: Env, s: State)
    requires s.node == Tools && ToolsNode(env, s).node != End
    ensures ToolsNode(env, s).node == Agent
  {
  }

  // ---- how it ends ----

  lemma AgentEnds(env: Env, s: State)
    requires s.node == Agent && Going(env, s) && AgentNode(env, s).node == End
    ensures EndsRightly(env, AgentNode(env, s))
  {
    hide AskedExactly, EndsRightly, Replied;
    var t := env.turn(s.iteration);
    if t.Reply? && s.iteration < env.maxIters { AnswerEnds(env, s); } else { NothingPending(env, s); NoReplyEnds(env, s); }
  }

  /** Before a turn every call has been executed, within the budget. */
  lemma NothingPending(env: Env, s: State)
    requires s.node == Agent && Going(env, s)
    ensures !OverBudget(env, s) && |s.records| == |Calls(s.messages)| && !Answered(env, s) && s.outcome == None
  {
    hide AskedExactly;
  }

  lemma AnswerEnds(env: Env, s: State)
    requires s.node == Agent && Going(env, s) && AgentNode(env, s).node == End
    requires env.turn(s.iteration).Reply? && s.iteration < env.maxIters
    ensures EndsRightly(env, AgentNode(env, s))
  {
    hide AskedExactly, Replied, Calls, LastReply;
    NewReply(s.messages, []);
    AnsweredOnly(env, AgentNode(env, s));
  }

  /** After an answer no other reason holds. */
  lemma AnsweredOnly(env: Env, t: State)
    requires Answered(env, t) && t.outcome == None && LastReply(t.messages) == [] && |t.records| == |Calls(t.messages)|
    ensures EndsRightly(env, t)
  {
    hide Calls, LastReply;
  }

  lemma NoReplyEnds(env: Env, s: State)
    requires s.node == Agent && !OverBudget(env, s) && |s.records| == |Calls(s.messages)| && !Answered(env, s) && s.outcome == None
    requires !env.turn(s.iteration).Reply? || s.iteration >= env.maxIters
    ensures EndsRightly(env, AgentNode(env, s))
  {
    hide Calls, LastReply, OverBudget;
    var t := AgentNode(env, s);
    SameSpend(env, s, t);
  }

  lemma SameSpend(env: Env, s: State, t: State)
    requires t.tokens == s.tokens && t.usd == s.usd && t.records == s.records && t.messages == s.messages
    ensures OverBudget(env, t) <==> OverBudget(env, s)
  {
  }

  /** What the call that stopped the batch says about the end. */
  lemma ToolsEnd(env: Env, s: State)
    requires s.node == Tools && Going(env, s) && ToolsNode(env, s).node == End
    ensures EndsRightly(env, ToolsNode(env, s))
  {
    hide RunCalls, AskedExactly, SoftBlocked, EndsRightly;
    var calls := LastCalls(s.messages);
    var spent := Spent(env, s);
    var k := BatchStopsAt(env, spent, FirstBatch(s), calls, |calls|);
    AnswersAreTools(env, s);
    var b := CallsAfter(env, s, |calls|);
    ToolMessagesKeepReply(s.messages, b.answers);
    ToolMessagesAddNoCalls(s.messages, b.answers);
    var before := Calls(s.messages[..|s.messages| - 1]);
    assert Calls(s.messages) == before + calls && |before| == |s.records|;
    if k > 0 { UnstoppedRows(env, spent, FirstBatch(s), calls, k); }
    StoppingCallDecides(env, s, RunCalls(env, spent, FirstBatch(s), calls, k), before, calls, k, ToolsNode(env, s));
  }

  lemma StoppingCallDecides(env: Env, s: State, r: Batch, before: seq<ToolCall>, calls: seq<ToolCall>, k: nat, t: State)
    requires k < |calls| && r.outcome.None? && r.made == |r.records| == |before| + k
    requires var b := OneCall(env, Spent(env, s), r, calls[k]);
      b.outcome.Some? && t.outcome == b.outcome && t.records == b.records
    requires t.tokens == s.tokens && t.usd == s.usd && t.iteration == s.iteration
    requires Calls(t.messages) == before + calls && LastReply(t.messages) == calls
    requires s.iteration > 0 && env.turn(s.iteration - 1).Reply? && env.turn(s.iteration - 1).calls == calls
    requires k > 0 ==> Spent(env, s) == None
    ensures EndsRightly(env, t)
  {
    assert (before + calls)[|before| + k] == calls[k];
  }

  lemma {:induction false} EndingStays(env: Env, run: seq<State>, n: nat)
    requires IsRun(env, run) && n < |run| && run[n].node == End
    ensures EndsRightly(env, run[n])
  {
    hide EndsRightly, ToolsNode, AgentNode, Going;
    assert n > 0;
    assert StepAt(env, run, n - 1);
    RunGoes(env, run, n - 1);
    match run[n - 1].node
    case Agent => AgentEnds(env, run[n - 1]);
    case Tools => ToolsEnd(env, run[n - 1]);
    case End => EndingStays(env, run, n - 1);
  }

  // ---- the last question ----

  ghost predicate LastApproved(env: Env, asked: seq<Ask>) {
    asked == [] || env.verdict(asked[|asked| - 1].call) == Approved
  }

  ghost predicate PendingIsLast(env: Env, asked: seq<Ask>, outcome: Option<Outcome>) {
    && (outcome == Some(GatePending) <==> asked != [] && env.verdict(asked[|asked| - 1].call) == Pending)
    && (outcome.None? ==> LastApproved(env, asked))
  }

  lemma OneQuestion(env: Env, spent: Option<Budget.Reason>, b: Batch, tc: ToolCall)
    requires b.outcome.None? && LastApproved(env, b.asked)
    ensures var r := OneCall(env, spent, b, tc); PendingIsLast(env, r.asked, r.outcome)
  {
    hide SkillName, CallId;
  }

  lemma {:induction false} BatchQuestions(env: Env, spent: Option<Budget.Reason>, b: Batch, calls: seq<ToolCall>, n: nat)
    requires n <= |calls| && b.outcome.None? && LastApproved(env, b.asked)
    ensures var r := RunCalls(env, spent, b, calls, n); PendingIsLast(env, r.asked, r.outcome)
  {
    hide OneCall;
    if n > 0 {
      BatchQuestions(env, spent, b, calls, n - 1);
      var r := RunCalls(env, spent, b, calls, n - 1);
      if r.outcome.None? { OneQuestion(env, spent, r, calls[n - 1]); }
    }
  }

  lemma {:induction false} LastQuestionDecides(env: Env, run: seq<State>, n: nat)
    requires IsRun(env, run) && n < |run|
    ensures PendingIsLast(env, run[n].asked, run[n].outcome)
  {
    if n > 0 {
      hide RunCalls, PendingIsLast;
      LastQuestionDecides(env, run, n - 1);
      RunAsksExactly(env, run, n - 1);
      assert StepAt(env, run, n - 1);
      StepQuestions(env, run[n - 1]);
    }
  }

  lemma StepQuestions(env: Env, s: State)
    requires PendingIsLast(env, s.asked, s.outcome) && (s.node != End ==> s.outcome == None)
    ensures PendingIsLast(env, Step(env, s).asked, Step(env, s).outcome)
  {
    hide RunCalls;
    if s.node == Tools {
      BatchQuestions(env, Spent(env, s), FirstBatch(s), LastCalls(s.messages), |LastCalls(s.messages)|);
    }
  }

  /**
   * A finished run ends with each outcome exactly for its reason: a pending or turned down gate, a hard block, a limit on
   * calls or turns, spend beyond the budget, an abort, a missing provider, a rate limit, an error, or an answer.
   */
  lemma OutcomeIsExact(env: Env, run: seq<State>)
    requires IsRun(env, run) && run[|run| - 1].node == End
    ensures EndsRightly(env, run[|run| - 1])
    ensures var s := run[|run| - 1];
      s.outcome == Some(GatePending) <==> s.asked != [] && env.verdict(s.asked[|s.asked| - 1].call) == Pending
  {
    EndingStays(env, run, |run| - 1);
    LastQuestionDecides(env, run, |run| - 1);
  }
}
