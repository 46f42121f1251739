/** What a loop has written down at every moment: its rows, its spend, and the answers it kept. */
module AgentRows {
  import opened Wrappers
  import opened AgentLoop
  import AgentOutcomes
  import Budget

  /** Row k is the model's k-th call, under the translated name, numbered from 1, with what its execution threw. */
  predicate IsRow(env: Env, r: Record, k: nat, tc: ToolCall) {
    r == Record(k + 1, if tc.name in env.wire then env.wire[tc.name] else tc.name, tc.args, env.throws(k + 1))
  }

  ghost predicate RowsAreCalls(env: Env, s: State) {
    |s.records| <= |Calls(s.messages)|
    && forall k :: 0 <= k < |s.records| ==> IsRow(env, s.records[k], k, Calls(s.messages)[k])
  }

  function TokensOf(env: Env, turns: nat): nat {
    if turns == 0 then 0 else TokensOf(env, turns - 1) + (if env.turn(turns - 1).Reply? then env.turn(turns - 1).tokens else 0)
  }

  function UsdOf(env: Env, turns: nat): real {
    if turns == 0 then 0.0 else UsdOf(env, turns - 1) + (if env.turn(turns - 1).Reply? then env.turn(turns - 1).usd else 0.0)
  }

  function ToolMessages(messages: seq<Message>): nat {
    if messages == [] then 0
    else ToolMessages(messages[..|messages| - 1]) + (if messages[|messages| - 1].Tool? then 1 else 0)
  }

  /** A batch stopped before one of its calls, and not by the budget. */
  predicate DropsBatch(s: State) {
    s.outcome in {Some(GatedReject), Some(GatePending), Some(Failed(ToolCallBudget))}
  }

  /** The model was called once more than it replied. */
  predicate LastTurnFailed(s: State) {
    s.outcome.Some? && (s.outcome.value.RateLimited? || (s.outcome.value.Failed? && s.outcome.value.why.ModelError?))
  }

  /** Answers and call count go together; a batch that a gate or the call limit stops leaves neither. */
  ghost predicate AnswersKept(s: State) {
    && s.toolCallsMade == ToolMessages(s.messages)
    && if DropsBatch(s) then
         && s.messages != [] && s.messages[|s.messages| - 1].Ai?
         && s.toolCallsMade + |LastCalls(s.messages)| == |Calls(s.messages)|
       else s.toolCallsMade == |s.records|
  }

  ghost predicate SpendIsSummed(env: Env, s: State) {
    && s.tokens == TokensOf(env, s.iteration) && s.usd == UsdOf(env, s.iteration)
    && s.invoked == s.iteration + (if LastTurnFailed(s) then 1 else 0)
  }

  // ---- one batch ----

  ghost predicate BatchRows(env: Env, first: Batch, b: Batch, calls: seq<ToolCall>, n: nat)
    requires n <= |calls|
  {
    var m := |first.records|;
    && m <= |b.records| <= m + n && b.records[..m] == first.records
    && (forall k :: m <= k < |b.records| ==> IsRow(env, b.records[k], k, calls[k - m]))
    && (b.outcome.None? ==> |b.records| == m + n)
    && (forall a <- b.answers :: a.Tool?)
    && (b.outcome.Some? && !b.outcome.value.BudgetExhausted? ==> b.outcome in {Some(GatedReject), Some(GatePending), Some(Failed(ToolCallBudget))})
    && (b.outcome.None? || b.outcome.value.BudgetExhausted? ==> b.made == |b.records| && |b.answers| == |b.records| - m)
  }

  lemma OneCallWritesRow(env: Env, spent: Option<Budget.Reason>, first: Batch, b: Batch, calls: seq<ToolCall>, n: nat)
    requires n < |calls| && b.outcome.None? && BatchRows(env, first, b, calls, n)
    ensures BatchRows(env, first, OneCall(env, spent, b, calls[n]), calls, n + 1)
  {
    hide CallId, GateAsks;
    var r := OneCall(env, spent, b, calls[n]);
    assert forall k :: |first.records| <= k < |b.records| ==> r.records[k] == b.records[k];
  }

  lemma {:induction false} BatchWritesRows(env: Env, spent: Option<Budget.Reason>, b: Batch, calls: seq<ToolCall>, n: nat)
    requires n <= |calls| && b.outcome.None? && b.made == |b.records| && b.answers == []
    ensures BatchRows(env, b, RunCalls(env, spent, b, calls, n), calls, n)
  {
    if n > 0 {
      hide OneCall, BatchRows;
      BatchWritesRows(env, spent, b, calls, n - 1);
      var r := RunCalls(env, spent, b, calls, n - 1);
      if r.outcome.None? { OneCallWritesRow(env, spent, b, r, calls, n - 1); } else { StoppedKeepsRows(env, b, r, calls, n - 1); }
    }
  }

  lemma StoppedKeepsRows(env: Env, first: Batch, b: Batch, calls: seq<ToolCall>, n: nat)
    requires n < |calls| && b.outcome.Some? && BatchRows(env, first, b, calls, n)
    ensures BatchRows(env, first, b, calls, n + 1)
  {
  }

  lemma {:induction false} AnswersCount(messages: seq<Message>, answers: seq<Message>)
    requires forall a <- answers :: a.Tool?
    ensures ToolMessages(messages + answers) == ToolMessages(messages) + |answers|
  {
    if answers == [] {
      assert messages + answers == messages;
    } else {
      var front, last := answers[..|answers| - 1], answers[|answers| - 1];
      assert (messages + answers)[..|messages + answers| - 1] == messages + front;
      assert last in answers;
      AnswersCount(messages, front);
    }
  }

  // ---- whole runs ----

  ghost predicate WrittenDown(env: Env, s: State) {
    RowsAreCalls(env, s) && AnswersKept(s) && SpendIsSummed(env, s) && (s.node != End ==> s.outcome == None)
  }

  lemma AgentWrites(env: Env, s: State)
    requires s.node == Agent && WrittenDown(env, s)
    ensures WrittenDown(env, AgentNode(env, s))
  {
    var t := env.turn(s.iteration);
    if t.Reply? {
      ReplyAddsCalls(s.messages, Ai(t.calls));
      assert (s.messages + [Ai(t.calls)])[..|s.messages|] == s.messages;
    }
  }

  lemma ToolsWrite(env: Env, s: State)
    requires s.node == Tools && WrittenDown(env, s) && AskedSoFar(env, s) && s.messages != [] && s.messages[|s.messages| - 1].Ai?
    ensures WrittenDown(env, ToolsNode(env, s))
  {
    hide RunCalls, AskedExactly;
    var calls := LastCalls(s.messages);
    var b := CallsAfter(env, s, |calls|);
    BatchWritesRows(env, Spent(env, s), FirstBatch(s), calls, |calls|);
    AnswersCount(s.messages, b.answers);
    ToolMessagesAddNoCalls(s.messages, b.answers);
    var before := Calls(s.messages[..|s.messages| - 1]);
    assert Calls(s.messages) == before + calls;
    forall k | 0 <= k < |b.records| ensures IsRow(env, b.records[k], k, Calls(s.messages)[k]) {
      if k < |s.records| { assert b.records[..|s.records|][k] == s.records[k]; }
    }
  }

  lemma {:induction false} RunWrites(env: Env, run: seq<State>, n: nat)
    requires IsRun(env, run) && n < |run|
    ensures WrittenDown(env, run[n])
  {
    hide WrittenDown, AgentNode, ToolsNode, AskedSoFar;
    if n > 0 {
      RunWrites(env, run, n - 1);
      RunAsksExactly(env, run, n - 1);
      AgentOutcomes.RunGoes(env, run, n - 1);
      assert StepAt(env, run, n - 1);
      match run[n - 1].node
      case Agent => AgentWrites(env, run[n - 1]);
      case Tools => ToolsWrite(env, run[n - 1]);
      case End =>
    } else {
      NothingWritten(env);
    }
  }

  lemma NothingWritten(env: Env)
    ensures WrittenDown(env, INITIAL)
  {
    assert [System, Human][..1] == [System] && [System][..0] == [];
    assert ToolMessages([System, Human]) == ToolMessages([System]) == 0;
  }

  /**
   * At every moment the rows are the model's first calls, one by one; tokens and dollars are the sums over the turns
   * taken; and the conversation holds one answer for each row, but none of a batch that a gate or the call limit stopped.
   */
  lemma RunIsWrittenDown(env: Env, run: seq<State>)
    requires IsRun(env, run)
    ensures forall s <- run :: RowsAreCalls(env, s) && AnswersKept(s) && SpendIsSummed(env, s)
  {
    forall n | 0 <= n < |run| ensures WrittenDown(env, run[n]) {
      RunWrites(env, run, n);
    }
  }
}
