/** The agent loop: model turns and tool batches alternate until an outcome, under iteration, call and spend limits. */
module AgentLoop {
  import opened Wrappers
  import Budget
  import Numerals

  // ---- tools and their wire names ----

  predicate IsWireChar(c: char) {
    'a' <= c <= 'z' || 'A' <= c <= 'Z' || '0' <= c <= '9' || c == '_' || c == '-'
  }

  /** The letters, digits, hyphen and underscore of ASCII, by their codes. */
  lemma WireCharsAre(c: char)
    ensures var n := c as int;
      IsWireChar(c) <==> 48 <= n <= 57 || 65 <= n <= 90 || 97 <= n <= 122 || n == 45 || n == 95
  {
  }

  function SanitizeToolName(name: string): string {
    seq(|name|, i requires 0 <= i < |name| => if IsWireChar(name[i]) then name[i] else '_')
  }

  /** What a wire name is allowed to be, and that exactly the legal names are left alone. */
  lemma SanitizedIsLegal(name: string)
    ensures |SanitizeToolName(name)| == |name|
    ensures forall c <- SanitizeToolName(name) :: IsWireChar(c)
    ensures forall k :: 0 <= k < |name| ==> SanitizeToolName(name)[k] == if IsWireChar(name[k]) then name[k] else '_'
    ensures SanitizeToolName(name) == name <==> forall c <- name :: IsWireChar(c)
  {
    var wire := SanitizeToolName(name);
    if forall c <- name :: IsWireChar(c) {
      assert forall k :: 0 <= k < |name| ==> name[k] in name;
    } else {
      var c :| c in name && !IsWireChar(c);
      var k :| 0 <= k < |name| && name[k] == c;
      assert wire[k] != name[k];
    }
  }

  datatype SideEffect = Read | Write

  datatype Skill = Skill(name: string, effect: SideEffect)

  predicate IsBound(name: string, registry: map<string, Skill>, readOnly: bool) {
    name in registry && (readOnly ==> registry[name].effect == Read)
  }

  /** The names bound, in their own order. */
  function Bound(names: seq<string>, registry: map<string, Skill>, readOnly: bool): seq<string> {
    if names == [] then []
    else
      var last := names[|names| - 1];
      Bound(names[..|names| - 1], registry, readOnly) + (if IsBound(last, registry, readOnly) then [last] else [])
  }

  lemma {:induction false} BoundKeepsOrder(a: seq<string>, b: seq<string>, registry: map<string, Skill>, readOnly: bool)
    ensures Bound(a + b, registry, readOnly) == Bound(a, registry, readOnly) + Bound(b, registry, readOnly)
  {
    if b == [] {
      assert a + b == a;
    } else {
      var front, last := b[..|b| - 1], b[|b| - 1];
      assert (a + b)[..|a + b| - 1] == a + front && (a + b)[|a + b| - 1] == last;
      BoundKeepsOrder(a, front, registry, readOnly);
    }
  }

  /** The skills bound for the model: those the registry knows, and for a read-only agent only the reading ones. */
  method BindTools(names: seq<string>, registry: map<string, Skill>, readOnly: bool) returns (tools: seq<string>)
    requires forall n <- registry :: registry[n].name == n
    ensures forall t <- tools :: t in names && t in registry && (readOnly ==> registry[t].effect == Read)
    ensures forall n <- names :: n in registry && (readOnly ==> registry[n].effect == Read) ==> n in tools
    ensures tools == Bound(names, registry, readOnly)
  {
    tools := [];
    for i := 0 to |names|
      invariant tools == Bound(names[..i], registry, readOnly)
      invariant forall t <- tools :: t in names && t in registry && (readOnly ==> registry[t].effect == Read)
      invariant forall k :: 0 <= k < i && names[k] in registry && (readOnly ==> registry[names[k]].effect == Read) ==> names[k] in tools
    {
      assert names[..i + 1][..i] == names[..i];
      if names[i] !in registry {
        continue;
      }
      var skill := registry[names[i]];
      if readOnly && skill.effect != Read {
        continue;
      }
      tools := tools + [skill.name];
    }
    assert names[..|names|] == names;
  }

  predicate Collides(tools: seq<string>) {
    exists i, j :: 0 <= i < j < |tools| && tools[i] != tools[j] && SanitizeToolName(tools[i]) == SanitizeToolName(tools[j])
  }

  /** The wire map: it fails exactly when two different names become one, and otherwise leads every tool back to itself. */
  method WireNames(tools: seq<string>) returns (r: Result<map<string, string>, string>)
    ensures r.Err? <==> Collides(tools)
    ensures r.Err? ==> exists i, j :: 0 <= i < j < |tools| && tools[i] != tools[j] && SanitizeToolName(tools[i]) == SanitizeToolName(tools[j]) == r.error
    ensures r.Ok? ==> forall t <- tools :: SanitizeToolName(t) in r.value && r.value[SanitizeToolName(t)] == t
    ensures r.Ok? ==> forall w <- r.value :: r.value[w] in tools && SanitizeToolName(r.value[w]) == w
  {
    var wireToOriginal: map<string, string> := map[];
    for i := 0 to |tools|
      invariant forall k :: 0 <= k < i ==>
        SanitizeToolName(tools[k]) in wireToOriginal && wireToOriginal[SanitizeToolName(tools[k])] == tools[k]
      invariant forall w <- wireToOriginal :: wireToOriginal[w] in tools[..i] && SanitizeToolName(wireToOriginal[w]) == w
    {
      var wire := SanitizeToolName(tools[i]);
      if wire in wireToOriginal && wireToOriginal[wire] != tools[i] {
        var k :| 0 <= k < i && tools[k] == wireToOriginal[wire];
        return Err(wire);
      }
      wireToOriginal := wireToOriginal[wire := tools[i]];
    }
    assert tools[..|tools|] == tools;
    return Ok(wireToOriginal);
  }

  // ---- the loop's data ----

  datatype ToolCall = ToolCall(id: Option<string>, name: string, args: string)

  datatype Message = System | Human | Ai(calls: seq<ToolCall>) | Tool(callId: string)

  /** Why a step failed: the source's fixed reasons, or the text of a caught error. */
  datatype Why = IterationBudget | ToolCallBudget | ProviderMissing(text: string) | ModelError(text: string)

  datatype Outcome =
    | Cancelled
    | Failed(why: Why)
    | RateLimited
    | GatedReject
    | GatePending
    | BudgetExhausted(limit: Budget.Reason)

  /** What a visit to the model meets: an abort, no provider, an error, or a reply with its cost. */
  datatype Turn = Abort | NoProvider(why: string) | Throttled | Broken(why: string) | Reply(calls: seq<ToolCall>, tokens: nat, usd: real)

  datatype Decision = Allowed | SoftBlock | HardBlock

  datatype Verdict = Approved | Rejected | Pending

  /** Any behaviour of the model, the policy, the gate and the tools: turns by number, verdicts and failures by call number. */
  datatype Env = Env(
    maxIters: nat,
    maxToolCalls: nat,
    budget: Budget.Spec,
    wire: map<string, string>,
    turn: nat -> Turn,
    policy: (string, string) -> Decision,
    verdict: nat -> Verdict,
    throws: nat -> bool
  )

  /** A ToolCall row. */
  datatype Record = Record(sequence: nat, skillName: string, input: string, isError: bool)

  /** A call of the gate, for the tool call of that number. */
  datatype Ask = Ask(call: nat, skillName: string, input: string)

  datatype Node = Agent | Tools | End

  datatype State = State(
    node: Node,
    messages: seq<Message>,
    toolCallsMade: nat,
    iteration: nat,
    outcome: Option<Outcome>,
    records: seq<Record>,
    tokens: nat,
    usd: real,
    asked: seq<Ask>,
    invoked: nat,
    visits: nat
  )

  const INITIAL := State(Agent, [System, Human], 0, 0, None, [], 0, 0.0, [], 0, 0)

  function CallId(tc: ToolCall, made: nat): string {
    match tc.id
    case Some(id) => id
    case None => "call_" + Numerals.Decimal(made)
  }

  /** A bound tool's wire name is translated back; any other name is passed on as it is. */
  function SkillName(env: Env, tc: ToolCall): string {
    if tc.name in env.wire then env.wire[tc.name] else tc.name
  }

  // ---- the two nodes as transitions ----

  function AgentNode(env: Env, s: State): State {
    var v := s.(visits := s.visits + 1);
    var t := env.turn(s.iteration);
    if t.Abort? then v.(outcome := Some(Cancelled), node := End)
    else if s.iteration >= env.maxIters then v.(outcome := Some(Failed(IterationBudget)), node := End)
    else if t.NoProvider? then v.(outcome := Some(Failed(ProviderMissing(t.why))), node := End)
    else if t.Throttled? then v.(invoked := s.invoked + 1, outcome := Some(RateLimited), node := End)
    else if t.Broken? then v.(invoked := s.invoked + 1, outcome := Some(Failed(ModelError(t.why))), node := End)
    else
      v.(invoked := s.invoked + 1, tokens := s.tokens + t.tokens, usd := s.usd + t.usd,
         messages := s.messages + [Ai(t.calls)], iteration := s.iteration + 1, node := if t.calls == [] then End else Tools)
  }

  /** A tool batch so far: calls counted, rows written, answers collected, gates asked, and the outcome that stopped it. */
  datatype Batch = Batch(made: nat, records: seq<Record>, answers: seq<Message>, asked: seq<Ask>, outcome: Option<Outcome>)

  /** Only a soft block is put to the gate. */
  function GateAsks(env: Env, skillName: string, input: string, made: nat): seq<Ask> {
    if env.policy(skillName, input) == SoftBlock then [Ask(made, skillName, input)] else []
  }

  /** What stops a call before it is executed. */
  function GateStop(env: Env, skillName: string, input: string, made: nat): Option<Outcome> {
    match env.policy(skillName, input)
    case Allowed => None
    case HardBlock => Some(GatedReject)
    case SoftBlock =>
      match env.verdict(made)
      case Approved => None
      case Rejected => Some(GatedReject)
      case Pending => Some(GatePending)
  }

  function OneCall(env: Env, spent: Option<Budget.Reason>, b: Batch, tc: ToolCall): Batch {
    var made := b.made + 1;
    var skillName := SkillName(env, tc);
    if made > env.maxToolCalls then b.(made := made, outcome := Some(Failed(ToolCallBudget)))
    else
      var stop := GateStop(env, skillName, tc.args, made);
      var asked := b.asked + GateAsks(env, skillName, tc.args, made);
      if stop.Some? then b.(made := made, asked := asked, outcome := stop)
      else
        Batch(made, b.records + [Record(|b.records| + 1, skillName, tc.args, env.throws(made))],
              b.answers + [Tool(CallId(tc, made))], asked,
              if spent.Some? then Some(BudgetExhausted(spent.value)) else None)
  }

  /** The batch after the first n calls. */
  function RunCalls(env: Env, spent: Option<Budget.Reason>, b: Batch, calls: seq<ToolCall>, n: nat): Batch
    requires n <= |calls|
  {
    if n == 0 then b
    else
      var r := RunCalls(env, spent, b, calls, n - 1);
      if r.outcome.Some? then r else OneCall(env, spent, r, calls[n - 1])
  }

  function LastCalls(messages: seq<Message>): seq<ToolCall> {
    if messages != [] && messages[|messages| - 1].Ai? then messages[|messages| - 1].calls else []
  }

  /** The answers and the call count are kept only when the batch ends, or ends on the budget. */
  function Settled(s: State, b: Batch): State {
    var v := s.(visits := s.visits + 1, records := b.records, asked := b.asked, outcome := b.outcome,
                node := if b.outcome.Some? then End else Agent);
    if b.outcome.None? || b.outcome.value.BudgetExhausted? then v.(messages := s.messages + b.answers, toolCallsMade := b.made)
    else v
  }

  function Spent(env: Env, s: State): Option<Budget.Reason> {
    Budget.Exhausted(env.budget, s.tokens, s.usd)
  }

  function FirstBatch(s: State): Batch {
    Batch(s.toolCallsMade, s.records, [], s.asked, None)
  }

  function CallsAfter(env: Env, s: State, n: nat): Batch
    requires n <= |LastCalls(s.messages)|
  {
    RunCalls(env, Spent(env, s), FirstBatch(s), LastCalls(s.messages), n)
  }

  function ToolsNode(env: Env, s: State): State {
    Settled(s, CallsAfter(env, s, |LastCalls(s.messages)|))
  }

  function Step(env: Env, s: State): State {
    match s.node
    case Agent => AgentNode(env, s)
    case Tools => ToolsNode(env, s)
    case End => s
  }

  ghost predicate StepAt(env: Env, run: seq<State>, i: nat)
    requires i + 1 < |run|
  {
    run[i + 1] == Step(env, run[i])
  }

  /** The states of a loop, one node visit after another. */
  ghost predicate IsRun(env: Env, run: seq<State>) {
    run != [] && run[0] == INITIAL && forall i: nat :: i + 1 < |run| ==> StepAt(env, run, i)
  }

  lemma RunGrows(env: Env, run: seq<State>, s: State)
    requires IsRun(env, run) && s == Step(env, run[|run| - 1])
    ensures IsRun(env, run + [s])
  {
    var longer := run + [s];
    forall i: nat | i + 1 < |longer| ensures StepAt(env, longer, i) {
      if i + 1 < |run| {
        assert StepAt(env, run, i);
      }
    }
  }

  // ---- the class ----

  lemma {:induction false} StoppedStays(env: Env, s: State, i: nat, n: nat)
    requires i <= n <= |LastCalls(s.messages)| && CallsAfter(env, s, i).outcome.Some?
    ensures CallsAfter(env, s, n) == CallsAfter(env, s, i)
    decreases n
  {
    if i < n {
      StoppedStays(env, s, i, n - 1);
    }
  }

  /** One agent step: the graph state of the loop, its tool-call rows and its budget. */
  class AgentStep {
    const env: Env
    const budget: Budget.BudgetTracker
    var node: Node
    var messages: seq<Message>
    var toolCallsMade: nat
    var iteration: nat
    var outcome: Option<Outcome>
    var toolCallSeq: nat
    var records: seq<Record>
    var asked: seq<Ask>
    var invoked: nat
    var visits: nat

    ghost predicate Valid()
      reads this, budget
    {
      budget.spec == env.budget && toolCallSeq == |records|
    }

    ghost function Stored(): State
      reads this, budget
    {
      State(node, messages, toolCallsMade, iteration, outcome, records, budget.tokens, budget.usd, asked, invoked, visits)
    }

    constructor (env: Env)
      ensures Valid() && this.env == env && Stored() == INITIAL && fresh(budget)
    {
      this.env := env;
      budget := new Budget.BudgetTracker(env.budget);
      node, messages, toolCallsMade, iteration, outcome := Agent, [System, Human], 0, 0, None;
      toolCallSeq, records, asked, invoked, visits := 0, [], [], 0, 0;
    }

    method VisitAgent()
      requires Valid() && node == Agent
      modifies this, budget
      ensures Valid() && Stored() == AgentNode(env, old(Stored()))
    {
      visits := visits + 1;
      var t := env.turn(iteration);
      if t.Abort? {
        outcome, node := Some(Cancelled), End;
        return;
      }
      if iteration >= env.maxIters {
        outcome, node := Some(Failed(IterationBudget)), End;
        return;
      }
      if t.NoProvider? {
        outcome, node := Some(Failed(ProviderMissing(t.why))), End;
        return;
      }
      invoked := invoked + 1;
      if t.Throttled? {
        outcome, node := Some(RateLimited), End;
        return;
      }
      if t.Broken? {
        outcome, node := Some(Failed(ModelError(t.why))), End;
        return;
      }
      budget.Add(t.tokens, t.usd);
      messages := messages + [Ai(t.calls)];
      iteration := iteration + 1;
      node := if t.calls == [] then End else Tools;
    }

    /** The policy and, for a soft block, the gate; a hard block is never put to the gate. */
    method CheckGate(skillName: string, input: string, made: nat) returns (stop: Option<Outcome>)
      modifies this`asked
      ensures stop == GateStop(env, skillName, input, made)
      ensures asked == old(asked) + GateAsks(env, skillName, input, made)
    {
      var decision := env.policy(skillName, input);
      if decision != Allowed {
        if decision == HardBlock {
          return Some(GatedReject);
        }
        asked := asked + [Ask(made, skillName, input)];
        var verdict := env.verdict(made);
        if verdict == Rejected {
          return Some(GatedReject);
        }
        if verdict == Pending {
          return Some(GatePending);
        }
      }
      return None;
    }

    method VisitTools()
      requires Valid() && node == Tools
      modifies this
      ensures Valid() && Stored() == ToolsNode(env, old(Stored()))
    {
      hide GateStop, GateAsks, Budget.Exhausted, SkillName, CallId;
      ghost var s := Stored();
      var toolCalls := LastCalls(messages);
      var newMessages: seq<Message> := [];
      var made: nat := toolCallsMade;
      var stop: Option<Outcome> := None;
      var i := 0;
      while i < |toolCalls| && stop.None?
        invariant Valid() && i <= |toolCalls| && Stored() == s.(records := records, asked := asked)
        invariant CallsAfter(env, s, i) == Batch(made, records, newMessages, asked, stop)
      {
        var tc := toolCalls[i];
        i := i + 1;
        made := made + 1;
        if made > env.maxToolCalls {
          stop := Some(Failed(ToolCallBudget));
          continue;
        }
        var callId := CallId(tc, made);
        var skillName := SkillName(env, tc);
        stop := CheckGate(skillName, tc.args, made);
        if stop.Some? {
          continue;
        }
        toolCallSeq := toolCallSeq + 1;
        records := records + [Record(toolCallSeq, skillName, tc.args, env.throws(made))];
        newMessages := newMessages + [Tool(callId)];
        var b := budget.CheckExhausted();
        if b.Some? {
          stop := Some(BudgetExhausted(b.value));
        }
      }
      if stop.Some? {
        StoppedStays(env, s, i, |toolCalls|);
      }
      hide RunCalls, OneCall;
      visits, outcome, node := visits + 1, stop, if stop.Some? then End else Agent;
      if stop.None? || stop.value.BudgetExhausted? {
        messages, toolCallsMade := messages + newMessages, made;
      }
    }

    /** The whole step: it ends, within 2 * maxIters + 1 node visits, where the transitions lead. */
    method RunAgentStep() returns (ghost run: seq<State>)
      requires Valid() && Stored() == INITIAL
      modifies this, budget
      ensures Valid() && node == End
      ensures visits <= 2 * env.maxIters + 1 < env.maxIters * 2 + RECURSION_SLACK
      ensures IsRun(env, run) && Stored() == run[|run| - 1]
    {
      run := [Stored()];
      while node != End
        invariant Valid() && IsRun(env, run) && Stored() == run[|run| - 1]
        decreases 2 * env.maxIters + 1 - visits
      {
        VisitsLeft(env, run);
        Visit();
        RunGrows(env, run, Stored());
        run := run + [Stored()];
      }
      VisitsLeft(env, run);
    }

    method Visit()
      requires Valid() && node != End
      modifies this, budget
      ensures Valid() && Stored() == Step(env, old(Stored())) && visits == old(visits) + 1
    {
      if node == Agent {
        VisitAgent();
      } else {
        VisitTools();
      }
    }
  }

  lemma VisitsLeft(env: Env, run: seq<State>)
    requires IsRun(env, run)
    ensures run[|run| - 1].visits <= 2 * env.maxIters + 1
    ensures run[|run| - 1].node != End ==> run[|run| - 1].visits <= 2 * env.maxIters
  {
    RunIsCounted(env, run, |run| - 1);
  }

  /** The graph is compiled with a recursion limit of 2 * maxIters plus this. */
  const RECURSION_SLACK := 4

  /** How many node visits are still possible. */
  function Budgeted(env: Env, node: Node, iteration: nat): int {
    match node
    case Agent => 2 * (env.maxIters - iteration) + 1
    case Tools => 2 * (env.maxIters - iteration) + 2
    case End => 0
  }

  // ---- counting: iterations, calls, visits ----

  ghost predicate Counted(env: Env, s: State) {
    && s.iteration <= env.maxIters && s.invoked <= env.maxIters
    && (s.node != End ==> s.invoked == s.iteration && s.visits + Budgeted(env, s.node, s.iteration) == 2 * env.maxIters + 1)
    && s.visits <= 2 * env.maxIters + 1
    && |s.records| <= env.maxToolCalls
    && (s.node != End ==> s.toolCallsMade == |s.records|)
    && forall k :: 0 <= k < |s.records| ==> s.records[k].sequence == k + 1
  }

  /** Until a batch stops, every call counted has its row. */
  ghost predicate BatchCounted(env: Env, b: Batch) {
    && |b.records| <= env.maxToolCalls
    && (b.outcome.None? ==> b.made == |b.records|)
    && forall k :: 0 <= k < |b.records| ==> b.records[k].sequence == k + 1
  }

  lemma {:induction false} RunCallsCounts(env: Env, spent: Option<Budget.Reason>, b: Batch, calls: seq<ToolCall>, n: nat)
    requires n <= |calls| && BatchCounted(env, b)
    ensures BatchCounted(env, RunCalls(env, spent, b, calls, n))
  {
    if n > 0 {
      RunCallsCounts(env, spent, b, calls, n - 1);
    }
  }

  lemma AgentCounts(env: Env, s: State)
    requires s.node == Agent && Counted(env, s)
    ensures Counted(env, AgentNode(env, s))
  {
  }

  lemma ToolsCounts(env: Env, s: State)
    requires s.node == Tools && Counted(env, s)
    ensures Counted(env, ToolsNode(env, s))
  {
    RunCallsCounts(env, Spent(env, s), FirstBatch(s), LastCalls(s.messages), |LastCalls(s.messages)|);
  }

  lemma {:induction false} RunIsCounted(env: Env, run: seq<State>, n: nat)
    requires IsRun(env, run) && n < |run|
    ensures Counted(env, run[n])
  {
    if n > 0 {
      RunIsCounted(env, run, n - 1);
      assert StepAt(env, run, n - 1);
      match run[n - 1].node
      case Agent => AgentCounts(env, run[n - 1]);
      case Tools => ToolsCounts(env, run[n - 1]);
      case End =>
    }
  }

  /**
   * For every behaviour of model and tools: at most maxIters model turns and maxToolCalls executions, the rows numbered
   * 1..n without gaps, and an end within 2 * maxIters + 1 visits, so the recursion limit is never reached.
   */
  lemma LoopIsBounded(env: Env, run: seq<State>)
    requires IsRun(env, run)
    ensures var s := run[|run| - 1];
      && s.invoked <= env.maxIters && |s.records| <= env.maxToolCalls
      && (forall k :: 0 <= k < |s.records| ==> s.records[k].sequence == k + 1)
      && s.visits <= 2 * env.maxIters + 1
      && (|run| > 2 * env.maxIters + 1 ==> s.node == End)
  {
    RunIsCounted(env, run, |run| - 1);
    VisitsCount(env, run, |run| - 1);
  }

  lemma {:induction false} VisitsCount(env: Env, run: seq<State>, n: nat)
    requires IsRun(env, run) && n < |run|
    ensures run[n].node != End ==> run[n].visits == n
  {
    if n > 0 {
      VisitsCount(env, run, n - 1);
      assert StepAt(env, run, n - 1);
    }
  }

  // ---- spending ----

  /** Below the limit before every turn, and less than one turn beyond it always. */
  ghost predicate Spending(env: Env, s: State, tokens: nat, usd: real) {
    && (s.node == Agent ==> Budget.Exhausted(env.budget, s.tokens, s.usd).None?)
    && (env.budget.tokens > 0 ==> s.tokens < env.budget.tokens + tokens)
    && (env.budget.usd > 0.0 ==> s.usd < env.budget.usd + usd)
  }

  lemma {:induction false} BatchStopsOnBudget(env: Env, limit: Budget.Reason, b: Batch, calls: seq<ToolCall>, n: nat)
    requires 0 < n <= |calls|
    ensures RunCalls(env, Some(limit), b, calls, n).outcome.Some?
  {
    if n > 1 {
      BatchStopsOnBudget(env, limit, b, calls, n - 1);
    }
  }

  lemma {:induction false} ToolsHasCalls(env: Env, run: seq<State>, n: nat)
    requires IsRun(env, run) && n < |run|
    ensures run[n].node == Tools ==> LastCalls(run[n].messages) != []
  {
    if n > 0 {
      ToolsHasCalls(env, run, n - 1);
      assert StepAt(env, run, n - 1);
    }
  }

  lemma StepSpends(env: Env, s: State, tokens: nat, usd: real)
    requires usd >= 0.0 && env.budget.usd >= 0.0 && Spending(env, s, tokens, usd)
    requires env.turn(s.iteration).Reply? ==> env.turn(s.iteration).tokens <= tokens && env.turn(s.iteration).usd <= usd
    requires s.node == Tools ==> LastCalls(s.messages) != []
    ensures Spending(env, Step(env, s), tokens, usd)
  {
    if s.node == Tools && Spent(env, s).Some? {
      BatchStopsOnBudget(env, Spent(env, s).value, FirstBatch(s), LastCalls(s.messages), |LastCalls(s.messages)|);
    }
  }

  lemma {:induction false} RunSpends(env: Env, run: seq<State>, tokens: nat, usd: real, n: nat)
    requires IsRun(env, run) && n < |run| && usd >= 0.0 && env.budget.usd >= 0.0
    requires forall k :: env.turn(k).Reply? ==> env.turn(k).tokens <= tokens && env.turn(k).usd <= usd
    ensures Spending(env, run[n], tokens, usd)
  {
    if n > 0 {
      RunSpends(env, run, tokens, usd, n - 1);
      ToolsHasCalls(env, run, n - 1);
      assert StepAt(env, run, n - 1);
      StepSpends(env, run[n - 1], tokens, usd);
    }
  }

  /**
   * With every turn costing at most `tokens` and `usd`, the tracked spend is below a positive limit before every turn and
   * below the limit plus one turn always, however turns and tool batches interleave.
   */
  lemma OneTurnOverspend(env: Env, run: seq<State>, tokens: nat, usd: real)
    requires IsRun(env, run) && usd >= 0.0 && env.budget.usd >= 0.0
    requires forall k :: env.turn(k).Reply? ==> env.turn(k).tokens <= tokens && env.turn(k).usd <= usd
    ensures forall s <- run :: Spending(env, s, tokens, usd)
  {
    forall n | 0 <= n < |run| ensures Spending(env, run[n], tokens, usd) {
      RunSpends(env, run, tokens, usd, n);
    }
  }

  // ---- gates ----

  /** The k-th row's call was allowed by the policy, or its soft block was approved at the gate. */
  predicate Cleared(env: Env, r: Record) {
    match env.policy(r.skillName, r.input)
    case Allowed => true
    case SoftBlock => env.verdict(r.sequence) == Approved
    case HardBlock => false
  }

  lemma {:induction false} RunCallsClear(env: Env, spent: Option<Budget.Reason>, b: Batch, calls: seq<ToolCall>, n: nat)
    requires n <= |calls| && BatchCounted(env, b) && forall r <- b.records :: Cleared(env, r)
    ensures forall r <- RunCalls(env, spent, b, calls, n).records :: Cleared(env, r)
  {
    if n > 0 {
      RunCallsCounts(env, spent, b, calls, n - 1);
      RunCallsClear(env, spent, b, calls, n - 1);
    }
  }

  lemma {:induction false} RunClears(env: Env, run: seq<State>, n: nat)
    requires IsRun(env, run) && n < |run|
    ensures forall r <- run[n].records :: Cleared(env, r)
  {
    if n > 0 {
      RunClears(env, run, n - 1);
      RunIsCounted(env, run, n - 1);
      assert StepAt(env, run, n - 1);
      var s := run[n - 1];
      if s.node == Tools {
        RunCallsClear(env, Spent(env, s), FirstBatch(s), LastCalls(s.messages), |LastCalls(s.messages)|);
      }
    }
  }

  /** No call is executed that was not allowed, or approved at its own gate. */
  lemma EveryExecutionWasCleared(env: Env, run: seq<State>)
    requires IsRun(env, run)
    ensures forall r <- run[|run| - 1].records :: Cleared(env, r)
  {
    RunClears(env, run, |run| - 1);
  }

  /**
   * The gate is asked about soft blocks only, about each call at most once and in order, and about every executed call
   * that was soft-blocked.
   */
  ghost predicate AskedRightly(env: Env, records: seq<Record>, asked: seq<Ask>, made: nat) {
    && (forall a <- asked :: env.policy(a.skillName, a.input) == SoftBlock && a.call <= made)
    && (forall i, j :: 0 <= i < j < |asked| ==> asked[i].call < asked[j].call)
    && (forall r <- records :: env.policy(r.skillName, r.input) == SoftBlock ==> Ask(r.sequence, r.skillName, r.input) in asked)
  }

  lemma OneCallAsks(env: Env, spent: Option<Budget.Reason>, b: Batch, tc: ToolCall)
    requires BatchCounted(env, b) && b.outcome.None? && AskedRightly(env, b.records, b.asked, b.made)
    ensures var r := OneCall(env, spent, b, tc); AskedRightly(env, r.records, r.asked, r.made)
  {
  }

  lemma {:induction false} RunCallsAsk(env: Env, spent: Option<Budget.Reason>, b: Batch, calls: seq<ToolCall>, n: nat)
    requires n <= |calls| && BatchCounted(env, b) && AskedRightly(env, b.records, b.asked, b.made)
    ensures var r := RunCalls(env, spent, b, calls, n); AskedRightly(env, r.records, r.asked, r.made)
  {
    hide AskedRightly, BatchCounted, OneCall;
    if n > 0 {
      RunCallsCounts(env, spent, b, calls, n - 1);
      RunCallsAsk(env, spent, b, calls, n - 1);
      var r := RunCalls(env, spent, b, calls, n - 1);
      if r.outcome.None? { OneCallAsks(env, spent, r, calls[n - 1]); }
    }
  }

  /** The calls counted so far; once the loop has ended any count will do. */
  ghost predicate StateAsked(env: Env, s: State) {
    exists made: nat :: AskedRightly(env, s.records, s.asked, made) && (s.node != End ==> made == s.toolCallsMade)
  }

  lemma StepAsks(env: Env, s: State)
    requires Counted(env, s) && StateAsked(env, s)
    ensures StateAsked(env, Step(env, s))
  {
    hide AskedRightly;
    if s.node == Tools {
      RunCallsAsk(env, Spent(env, s), FirstBatch(s), LastCalls(s.messages), |LastCalls(s.messages)|);
      var b := CallsAfter(env, s, |LastCalls(s.messages)|);
      assert AskedRightly(env, ToolsNode(env, s).records, ToolsNode(env, s).asked, b.made);
    }
  }

  lemma {:induction false} RunAsks(env: Env, run: seq<State>, n: nat)
    requires IsRun(env, run) && n < |run|
    ensures StateAsked(env, run[n])
  {
    if n > 0 {
      hide StateAsked, Counted, Step;
      RunAsks(env, run, n - 1);
      RunIsCounted(env, run, n - 1);
      assert StepAt(env, run, n - 1);
      StepAsks(env, run[n - 1]);
    } else {
      assert AskedRightly(env, [], [], 0);
    }
  }

  /** The calls of all replies of the model, in order. */
  function Calls(messages: seq<Message>): seq<ToolCall> {
    if messages == [] then []
    else
      var last := messages[|messages| - 1];
      Calls(messages[..|messages| - 1]) + (if last.Ai? then last.calls else [])
  }

  /** The soft-blocked ones among the calls, under their numbers. */
  function SoftBlocked(env: Env, calls: seq<ToolCall>): seq<Ask> {
    if calls == [] then []
    else
      var last := calls[|calls| - 1];
      SoftBlocked(env, calls[..|calls| - 1]) + GateAsks(env, SkillName(env, last), last.args, |calls|)
  }

  /** How many calls came before the policy: those executed, and the one the gate stopped. */
  function Visited(records: seq<Record>, outcome: Option<Outcome>): nat {
    |records| + (if outcome in {Some(GatedReject), Some(GatePending)} then 1 else 0)
  }

  /** A batch that has begun after the calls `before`: its first n calls have been looked at, up to the one that stopped it. */
  ghost predicate BatchAsked(env: Env, b: Batch, before: seq<ToolCall>, calls: seq<ToolCall>, n: nat)
    requires n <= |calls|
  {
    && |before| <= Visited(b.records, b.outcome) <= |before| + n
    && b.asked == SoftBlocked(env, (before + calls)[..Visited(b.records, b.outcome)])
    && (b.outcome.None? ==> b.made == |b.records| == |before| + n)
    && forall m <- b.answers :: m.Tool?
  }

  lemma SoftBlockedNext(env: Env, all: seq<ToolCall>, v: nat)
    requires v < |all|
    ensures SoftBlocked(env, all[..v + 1]) == SoftBlocked(env, all[..v]) + GateAsks(env, SkillName(env, all[v]), all[v].args, v + 1)
  {
    assert all[..v + 1][..v] == all[..v];
  }

  /** What one call adds to the questions and to the calls visited. */
  lemma OneCallAsksOnce(env: Env, spent: Option<Budget.Reason>, b: Batch, tc: ToolCall)
    requires b.outcome.None? && b.made == |b.records|
    ensures var r := OneCall(env, spent, b, tc);
      && (if Visited(r.records, r.outcome) == b.made then r.asked == b.asked
          else Visited(r.records, r.outcome) == b.made + 1
               && r.asked == b.asked + GateAsks(env, SkillName(env, tc), tc.args, b.made + 1))
      && (r.outcome.None? ==> r.made == |r.records| == b.made + 1)
      && (r.answers == b.answers || r.answers == b.answers + [Tool(CallId(tc, b.made + 1))])
  {
    hide SkillName, CallId;
  }

  lemma OneCallIsAsked(env: Env, spent: Option<Budget.Reason>, b: Batch, before: seq<ToolCall>, calls: seq<ToolCall>, n: nat)
    requires n < |calls| && b.outcome.None? && BatchAsked(env, b, before, calls, n)
    ensures BatchAsked(env, OneCall(env, spent, b, calls[n]), before, calls, n + 1)
  {
    hide SkillName, SoftBlocked, OneCall, GateAsks, CallId;
    OneCallAsksOnce(env, spent, b, calls[n]);
    SoftBlockedNext(env, before + calls, |before| + n);
  }

  lemma {:induction false} BatchIsAsked(env: Env, spent: Option<Budget.Reason>, b: Batch, before: seq<ToolCall>, calls: seq<ToolCall>, n: nat)
    requires n <= |calls| && b.outcome.None? && BatchAsked(env, b, before, calls, 0)
    ensures BatchAsked(env, RunCalls(env, spent, b, calls, n), before, calls, n)
  {
    hide OneCall, BatchAsked;
    if n > 0 {
      BatchIsAsked(env, spent, b, before, calls, n - 1);
      var r := RunCalls(env, spent, b, calls, n - 1);
      if r.outcome.None? {
        OneCallIsAsked(env, spent, r, before, calls, n - 1);
      } else {
        StoppedBatchIsAsked(env, r, before, calls, n - 1);
      }
    }
  }

  lemma StoppedBatchIsAsked(env: Env, b: Batch, before: seq<ToolCall>, calls: seq<ToolCall>, n: nat)
    requires n < |calls| && b.outcome.Some? && BatchAsked(env, b, before, calls, n)
    ensures BatchAsked(env, b, before, calls, n + 1)
  {
  }

  /** The gate has been asked about exactly the soft-blocked calls among those visited, once each and in order. */
  ghost predicate AskedExactly(env: Env, s: State) {
    var calls, visited := Calls(s.messages), Visited(s.records, s.outcome);
    visited <= |calls| && s.asked == SoftBlocked(env, calls[..visited])
  }

  ghost predicate AskedSoFar(env: Env, s: State) {
    && AskedExactly(env, s)
    && (s.node != End ==> s.outcome == None && s.toolCallsMade == |s.records|)
    && (s.node == Agent ==> |s.records| == |Calls(s.messages)|)
    && (s.node == Tools ==> |s.records| + |LastCalls(s.messages)| == |Calls(s.messages)|)
  }

  lemma {:induction false} ToolMessagesAddNoCalls(messages: seq<Message>, answers: seq<Message>)
    requires forall m <- answers :: m.Tool?
    ensures Calls(messages + answers) == Calls(messages)
  {
    if answers == [] {
      assert messages + answers == messages;
    } else {
      var front, last := answers[..|answers| - 1], answers[|answers| - 1];
      assert (messages + answers)[..|messages + answers| - 1] == messages + front;
      assert last in answers;
      ToolMessagesAddNoCalls(messages, front);
    }
  }

  lemma AgentAsksNothing(env: Env, s: State)
    requires s.node == Agent && AskedSoFar(env, s)
    ensures AskedSoFar(env, AgentNode(env, s))
  {
    hide SoftBlocked;
    var t := AgentNode(env, s);
    if t.messages != s.messages {
      var reply := t.messages[|t.messages| - 1];
      ReplyAddsCalls(s.messages, reply);
      assert (Calls(s.messages) + reply.calls)[..|s.records|] == Calls(s.messages)[..|s.records|];
    }
  }

  lemma ReplyAddsCalls(messages: seq<Message>, reply: Message)
    requires reply.Ai?
    ensures Calls(messages + [reply]) == Calls(messages) + reply.calls
  {
    assert (messages + [reply])[..|messages|] == messages;
  }

  lemma ToolsAskExactly(env: Env, s: State)
    requires s.node == Tools && AskedSoFar(env, s)
    ensures AskedSoFar(env, ToolsNode(env, s))
  {
    hide SoftBlocked, OneCall;
    var calls, all := LastCalls(s.messages), Calls(s.messages);
    if s.messages != [] && s.messages[|s.messages| - 1].Ai? {
      var before := Calls(s.messages[..|s.messages| - 1]);
      assert all == before + calls && all[..|s.records|] == before;
      assert (before + calls)[..|before|] == before;
      AskedInBatch(env, s, before);
    } else {
      assert calls == [] && all[..|s.records|] == all && all + calls == all;
      AskedInBatch(env, s, all);
    }
  }

  lemma AskedInBatch(env: Env, s: State, before: seq<ToolCall>)
    requires s.node == Tools && AskedSoFar(env, s) && Calls(s.messages) == before + LastCalls(s.messages) && |s.records| == |before|
    ensures AskedSoFar(env, ToolsNode(env, s))
  {
    hide SoftBlocked, OneCall, RunCalls;
    var calls := LastCalls(s.messages);
    BatchIsAsked(env, Spent(env, s), FirstBatch(s), before, calls, |calls|);
    var b := CallsAfter(env, s, |calls|);
    ToolMessagesAddNoCalls(s.messages, b.answers);
  }

  lemma {:induction false} RunAsksExactly(env: Env, run: seq<State>, n: nat)
    requires IsRun(env, run) && n < |run|
    ensures AskedSoFar(env, run[n])
  {
    if n > 0 {
      hide AskedSoFar, ToolsNode, AgentNode;
      RunAsksExactly(env, run, n - 1);
      assert StepAt(env, run, n - 1);
      match run[n - 1].node
      case Agent => AgentAsksNothing(env, run[n - 1]);
      case Tools => ToolsAskExactly(env, run[n - 1]);
      case End =>
    } else {
      assert [System, Human][..1] == [System] && [System][..0] == [];
      assert Calls([System]) == [] && Calls([System, Human]) == [];
    }
  }

  /**
   * Over a whole run the gate is asked about exactly the visited calls that the policy blocks softly, in order, the one
   * that stopped the batch included. A hard block never reaches it.
   */
  lemma GateSeesEachSoftBlockOnce(env: Env, run: seq<State>)
    requires IsRun(env, run)
    ensures AskedExactly(env, run[|run| - 1])
    ensures StateAsked(env, run[|run| - 1])
  {
    RunAsks(env, run, |run| - 1);
    RunAsksExactly(env, run, |run| - 1);
  }

  // ---- pairing ----

  /** One tool message for each call, in order, under the call's own id, or one made from its number. */
  function Answers(calls: seq<ToolCall>, made: nat, n: nat): seq<Message>
    requires n <= |calls|
  {
    if n == 0 then [] else Answers(calls, made, n - 1) + [Tool(CallId(calls[n - 1], made + n))]
  }

  function CallsOf(env: Env, k: nat): seq<ToolCall> {
    if env.turn(k).Reply? then env.turn(k).calls else []
  }

  function CallCount(env: Env, n: nat): nat {
    if n == 0 then 0 else CallCount(env, n - 1) + |CallsOf(env, n - 1)|
  }

  /** The conversation after n turns that were all answered. */
  function Conversation(env: Env, n: nat): seq<Message> {
    if n == 0 then [System, Human]
    else Conversation(env, n - 1) + [Ai(CallsOf(env, n - 1))] + Answers(CallsOf(env, n - 1), CallCount(env, n - 1), |CallsOf(env, n - 1)|)
  }

  ghost predicate Conversing(env: Env, s: State) {
    match s.node
    case Agent => s.messages == Conversation(env, s.iteration) && s.toolCallsMade == CallCount(env, s.iteration)
    case Tools =>
      && s.iteration > 0
      && s.messages == Conversation(env, s.iteration - 1) + [Ai(CallsOf(env, s.iteration - 1))]
      && s.toolCallsMade == CallCount(env, s.iteration - 1)
    case End =>
      s.outcome.None? ==>
        s.iteration > 0 && CallsOf(env, s.iteration - 1) == [] && s.messages == Conversation(env, s.iteration)
  }

  lemma {:induction false} RunCallsAnswer(env: Env, spent: Option<Budget.Reason>, b: Batch, calls: seq<ToolCall>, n: nat)
    requires n <= |calls| && b.outcome.None? && b.answers == []
    ensures var r := RunCalls(env, spent, b, calls, n);
      r.outcome.None? ==> r.answers == Answers(calls, b.made, n) && r.made == b.made + n
  {
    if n > 0 {
      RunCallsAnswer(env, spent, b, calls, n - 1);
    }
  }

  lemma AgentConverses(env: Env, s: State)
    requires s.node == Agent && Conversing(env, s)
    ensures Conversing(env, AgentNode(env, s))
  {
    var calls := CallsOf(env, s.iteration);
    assert (s.messages + [Ai(calls)]) + [] == s.messages + [Ai(calls)];
  }

  lemma ToolsConverses(env: Env, s: State)
    requires s.node == Tools && Conversing(env, s)
    ensures Conversing(env, ToolsNode(env, s))
  {
    RunCallsAnswer(env, Spent(env, s), FirstBatch(s), LastCalls(s.messages), |LastCalls(s.messages)|);
  }

  lemma StepConverses(env: Env, s: State)
    requires Conversing(env, s)
    ensures Conversing(env, Step(env, s))
  {
    if s.node == Agent {
      AgentConverses(env, s);
    } else if s.node == Tools {
      ToolsConverses(env, s);
    }
  }

  lemma {:induction false} RunConverses(env: Env, run: seq<State>, n: nat)
    requires IsRun(env, run) && n < |run|
    ensures Conversing(env, run[n])
  {
    if n > 0 {
      RunConverses(env, run, n - 1);
      assert StepAt(env, run, n - 1);
      StepConverses(env, run[n - 1]);
    }
  }

  /** Message i asks for calls, and exactly the tool messages right after it answer them, same ids, same order. */
  ghost predicate AnsweredAt(messages: seq<Message>, i: nat)
    requires i < |messages| && messages[i].Ai?
  {
    var calls := messages[i].calls;
    && i + |calls| < |messages| && AnswerAll(messages[i + 1..i + 1 + |calls|], calls)
    && (i + |calls| + 1 < |messages| ==> messages[i + |calls| + 1].Ai?)
  }

  predicate AnswerOf(m: Message, tc: ToolCall) {
    m.Tool? && (tc.id.Some? ==> m.callId == tc.id.value)
  }

  ghost predicate AnswerAll(answers: seq<Message>, calls: seq<ToolCall>) {
    |answers| == |calls| && forall k :: 0 <= k < |calls| ==> AnswerOf(answers[k], calls[k])
  }

  ghost predicate AllAnswered(messages: seq<Message>) {
    && |messages| >= 2 && messages[0] == System && messages[1] == Human
    && (|messages| > 2 ==> messages[2].Ai?)
    && forall i: nat :: i < |messages| && messages[i].Ai? ==> AnsweredAt(messages, i)
  }

  lemma {:induction false} AnswersAnswer(calls: seq<ToolCall>, made: nat, n: nat)
    requires n <= |calls|
    ensures var a := Answers(calls, made, n); |a| == n && forall k :: 0 <= k < n ==> AnswerOf(a[k], calls[k])
  {
    if n > 0 {
      AnswersAnswer(calls, made, n - 1);
    }
  }

  lemma AnswersFollow(before: seq<Message>, calls: seq<ToolCall>, answers: seq<Message>)
    requires AllAnswered(before) && AnswerAll(answers, calls)
    ensures AllAnswered(before + [Ai(calls)] + answers)
  {
    var all := before + [Ai(calls)] + answers;
    forall i: nat | i < |all| && all[i].Ai? ensures AnsweredAt(all, i) {
      if i < |before| {
        assert AnsweredAt(before, i);
        var n := |before[i].calls|;
        assert all[i + 1..i + 1 + n] == before[i + 1..i + 1 + n];
      } else {
        assert forall k :: 0 <= k < |answers| ==> answers[k].Tool?;
        assert all[|before| + 1..] == answers;
      }
    }
  }

  lemma {:induction false} ConversationIsAnswered(env: Env, n: nat)
    ensures AllAnswered(Conversation(env, n))
  {
    if n > 0 {
      ConversationIsAnswered(env, n - 1);
      AnswersAnswer(CallsOf(env, n - 1), CallCount(env, n - 1), |CallsOf(env, n - 1)|);
      AnswersFollow(Conversation(env, n - 1), CallsOf(env, n - 1),
                    Answers(CallsOf(env, n - 1), CallCount(env, n - 1), |CallsOf(env, n - 1)|));
    }
  }

  /** In a completed run every AI message's calls are answered one for one, and the last AI message asked for none. */
  lemma CompletedRunsArePaired(env: Env, run: seq<State>)
    requires IsRun(env, run) && run[|run| - 1].node == End && run[|run| - 1].outcome.None?
    ensures AllAnswered(run[|run| - 1].messages)
    ensures var messages := run[|run| - 1].messages; messages[|messages| - 1] == Ai([])
  {
    RunConverses(env, run, |run| - 1);
    var s := run[|run| - 1];
    ConversationIsAnswered(env, s.iteration);
    var calls := CallsOf(env, s.iteration - 1);
    AnswersAnswer(calls, CallCount(env, s.iteration - 1), |calls|);
  }

  /** Ids made for calls that came without one never clash with each other. */
  lemma MadeIdsDiffer(a: ToolCall, b: ToolCall, m: nat, n: nat)
    requires a.id.None? && b.id.None? && m != n
    ensures CallId(a, m) != CallId(b, n)
    ensures CallId(a, m) == "call_" + Numerals.Decimal(m)
  {
    Numerals.DecimalReadsBack(m);
    Numerals.DecimalReadsBack(n);
    assert CallId(a, m)[5..] == Numerals.Decimal(m) && CallId(b, n)[5..] == Numerals.Decimal(n);
  }
}
