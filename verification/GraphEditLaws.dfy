/** Exactly when each edit of a lifecycle document goes through, what it changes, and what it leaves alone. */
module GraphEditLaws {
  import opened Wrappers
  import opened GraphEdit

  // ---- when an edit goes through ----

  predicate IsLetterOrDigit(c: char) {
    'a' <= c <= 'z' || 'A' <= c <= 'Z' || '0' <= c <= '9'
  }

  /** A legal id: a letter, then at most 63 letters, digits, underscores and dashes. */
  ghost predicate IsLegalName(id: string) {
    && 1 <= |id| <= 64 && IsLetterOrDigit(id[0]) && !('0' <= id[0] <= '9')
    && forall i :: 0 <= i < |id| ==> IsLetterOrDigit(id[i]) || id[i] == '_' || id[i] == '-'
  }

  lemma LegalNames(id: string)
    ensures IsValidId(id) <==> IsLegalName(id)
  {
    assert forall i :: 0 <= i < |id| ==> id[i] in id;
    if IsLegalName(id) {
      forall c <- id ensures IsLetter(c) || '0' <= c <= '9' || c == '_' || c == '-' { var i :| 0 <= i < |id| && id[i] == c; }
    }
  }

  /** Some workflow of the document has the id. */
  ghost predicate Names(items: seq<Item>, id: string) {
    exists item <- items :: item.Workflow? && item.id == Some(id)
  }

  lemma NamesAreIds(items: seq<Item>, id: string)
    ensures HasId(items, id) <==> Names(items, id)
  {
    if item :| item in items && item.Workflow? && item.id == Some(id) {
      var i :| 0 <= i < |items| && items[i] == item;
      assert IsNamed(items[i], id);
    }
  }

  /** What an edit asks of the document. */
  ghost predicate GoesThrough(items: seq<Item>, edit: Edit) {
    match edit
    case RenameWorkflow(a, b) => a != "" && b != "" && a != b && IsLegalName(b) && Names(items, a) && !Names(items, b)
    case AddEdge(a, b) => a != "" && b != "" && a != b && Names(items, a) && Names(items, b)
    case RemoveEdge(a, b) => a != "" && b != "" && Names(items, a)
    case AddAgent(w, a) => w != "" && a != "" && Names(items, w)
    case RemoveAgent(w, a) => w != "" && a != "" && Names(items, w)
  }

  /** An edit goes through if and only if its arguments are given and legal and its workflows are there; never without a list. */
  lemma EditGoesThroughIff(source: Source, edit: Edit)
    ensures Apply(source, edit).Ok? <==> source.Some? && GoesThrough(source.value, edit)
  {
    if source.Some? {
      match edit
      case RenameWorkflow(a, b) =>
        LegalNames(b);
        NamesAreIds(source.value, a);
        NamesAreIds(source.value, b);
      case AddEdge(a, b) =>
        NamesAreIds(source.value, a);
        NamesAreIds(source.value, b);
      case RemoveEdge(a, _) => NamesAreIds(source.value, a);
      case AddAgent(w, _) => NamesAreIds(source.value, w);
      case RemoveAgent(w, _) => NamesAreIds(source.value, w);
    }
  }

  /** The argument of an edit that comes first, and the workflow it names. */
  function Arguments(edit: Edit): (string, string) {
    match edit
    case RenameWorkflow(a, b) => (a, b)
    case AddEdge(a, b) => (a, b)
    case RemoveEdge(a, b) => (a, b)
    case AddAgent(w, a) => (w, a)
    case RemoveAgent(w, a) => (w, a)
  }

  /** Why an edit is refused: arguments first, then the document, then the workflows it names. */
  lemma RefusalsAreExact(source: Source, edit: Edit)
    requires Apply(source, edit).Err?
    ensures var e, (a, b) := Apply(source, edit).error, Arguments(edit);
      && (e == ArgumentMissing <==> a == "" || b == "")
      && (e == SelfEdge <==> edit.AddEdge? && a == b && a != "")
      && (e == IdenticalNames <==> edit.RenameWorkflow? && a == b && a != "")
      && (e.InvalidId? <==> edit.RenameWorkflow? && a != "" && b != "" && a != b && !IsLegalName(b)) && (e.InvalidId? ==> e.id == b)
      && (e == NoWorkflows ==> source.None?)
      && (e.AlreadyExists? ==> edit.RenameWorkflow? && source.Some? && Names(source.value, a) && Names(source.value, b) && e.id == b)
      && (e.NotFound? ==> source.Some? && !Names(source.value, e.id) && e.id == if Names(source.value, a) then b else a)
      && e != NoEdits
  {
    var (a, b) := Arguments(edit);
    LegalNames(b);
    if source.Some? {
      NamesAreIds(source.value, a);
      NamesAreIds(source.value, b);
    }
  }

  // ---- agents ----

  function AgentsOf(item: Item): seq<Entry> {
    if item.Workflow? && item.agents.List? then item.agents.entries else []
  }

  ghost predicate HasAgent(items: seq<Item>, w: string, a: string) {
    exists i :: 0 <= i < |items| && IsNamed(items[i], w) && Text(a) in AgentsOf(items[i])
  }

  /** Adding an agent adds that agent to that workflow and nothing else. */
  lemma AddAgentAddsIt(items: seq<Item>, w: string, a: string, x: string, y: string)
    requires Apply(Some(items), AddAgent(w, a)).Ok?
    ensures HasAgent(Apply(Some(items), AddAgent(w, a)).value, x, y) <==> HasAgent(items, x, y) || (x == w && y == a)
  {
    var r := Apply(Some(items), AddAgent(w, a)).value;
    var i := Find(items, w).value;
    assert IsNamed(r[i], w) && Text(a) in AgentsOf(r[i]);
    if HasAgent(items, x, y) {
      var j :| 0 <= j < |items| && IsNamed(items[j], x) && Text(y) in AgentsOf(items[j]);
      assert IsNamed(r[j], x) && Text(y) in AgentsOf(r[j]);
    }
    if HasAgent(r, x, y) {
      var j :| 0 <= j < |r| && IsNamed(r[j], x) && Text(y) in AgentsOf(r[j]);
      assert IsNamed(items[j], x);
    }
  }

  lemma {:induction false} RemovedOnce(entries: seq<Entry>, e: Entry)
    requires NoTwice(entries) && e.Text?
    ensures forall x :: x in RemoveFirst(entries, e) <==> x in entries && x != e
  {
    if entries != [] {
      if entries[0] == e {
        forall x ensures x in entries[1..] <==> x in entries && x != e {
          if x in entries && x != e { var k :| 0 <= k < |entries| && entries[k] == x; assert entries[1..][k - 1] == x; }
        }
      } else {
        forall j, k | 0 <= j < k < |entries[1..]| && entries[1..][j].Text? ensures entries[1..][j] != entries[1..][k] {
          assert entries[j + 1] != entries[k + 1];
        }
        RemovedOnce(entries[1..], e);
      }
    }
  }

  /** Removing an agent from a list that names it once removes that agent from that workflow and nothing else. */
  lemma RemoveAgentRemovesIt(items: seq<Item>, w: string, a: string, x: string, y: string)
    requires Apply(Some(items), RemoveAgent(w, a)).Ok? && UniqueIds(items) && forall item <- items :: NoTwice(AgentsOf(item))
    ensures HasAgent(Apply(Some(items), RemoveAgent(w, a)).value, x, y) <==> HasAgent(items, x, y) && !(x == w && y == a)
  {
    var r := Apply(Some(items), RemoveAgent(w, a)).value;
    var i := Find(items, w).value;
    assert items[i] in items;
    RemovedOnce(AgentsOf(items[i]), Text(a));
    if HasAgent(r, x, y) {
      var j :| 0 <= j < |r| && IsNamed(r[j], x) && Text(y) in AgentsOf(r[j]);
      assert IsNamed(items[j], x) && Text(y) in AgentsOf(items[j]);
      if x == w { OnlyOneIsNamed(items, i, j, w); }
    }
    if HasAgent(items, x, y) && !(x == w && y == a) {
      var j :| 0 <= j < |items| && IsNamed(items[j], x) && Text(y) in AgentsOf(items[j]);
      assert IsNamed(r[j], x) && Text(y) in AgentsOf(r[j]);
    }
  }

  // ---- what stays, and where a new entry goes ----

  /** The list keeps its entries in order: at most the new one comes last, or the removed one goes. */
  ghost predicate ListFollows(before: Field, after: Field, v: string, adds: bool) {
    if adds then
      if before.List? && Text(v) in before.entries then after == before
      else after == List((if before.List? then before.entries else []) + [Text(v)])
    else if before.List? && Text(v) in before.entries then
      after.List? && exists k :: 0 <= k < |before.entries| && before.entries[k] == Text(v) && Text(v) !in before.entries[..k]
                                 && after.entries == before.entries[..k] + before.entries[k + 1..]
    else after == before
  }

  /** An edit of a list changes that list of the first workflow of the name and leaves every other part as it is. */
  ghost predicate OnlyList(items: seq<Item>, r: seq<Item>, id: string, v: string, outs: bool, adds: bool) {
    && |r| == |items|
    && exists i :: 0 <= i < |items| && IsNamed(items[i], id) && (forall j :: 0 <= j < i ==> !IsNamed(items[j], id))
         && (forall j :: 0 <= j < |items| && j != i ==> r[j] == items[j])
         && r[i].Workflow?
         && r[i] == (if outs then items[i].(out := r[i].out) else items[i].(agents := r[i].agents))
         && (if outs then ListFollows(items[i].out, r[i].out, v, adds) else ListFollows(items[i].agents, r[i].agents, v, adds))
  }

  lemma {:induction false} FirstIs(items: seq<Item>, id: string)
    requires Find(items, id).Some?
    ensures forall j :: 0 <= j < Find(items, id).value ==> !IsNamed(items[j], id)
  {
    if items != [] && !IsNamed(items[0], id) {
      FirstIs(items[1..], id);
      forall j | 0 <= j < Find(items, id).value ensures !IsNamed(items[j], id) {
        if j > 0 { assert items[1..][j - 1] == items[j]; }
      }
    }
  }

  lemma {:induction false} FirstGoes(entries: seq<Entry>, e: Entry) returns (k: nat)
    requires e in entries
    ensures k < |entries| && entries[k] == e && e !in entries[..k] && RemoveFirst(entries, e) == entries[..k] + entries[k + 1..]
  {
    if entries[0] == e {
      k := 0;
    } else {
      k := FirstGoes(entries[1..], e);
      assert entries[..k + 1] == [entries[0]] + entries[1..][..k];
      k := k + 1;
    }
  }

  /** Edges and agents: exactly the list named changes, by exactly the entry named. */
  lemma ListEditsAreLocal(items: seq<Item>, edit: Edit)
    requires !edit.RenameWorkflow? && Apply(Some(items), edit).Ok?
    ensures var (id, v) := Arguments(edit);
      OnlyList(items, Apply(Some(items), edit).value, id, v, edit.AddEdge? || edit.RemoveEdge?, edit.AddEdge? || edit.AddAgent?)
  {
    hide FieldHas, FieldAdd, FieldRemove, ListFollows;
    var (id, v) := Arguments(edit);
    var r := Apply(Some(items), edit).value;
    var i := Find(items, id).value;
    FirstIs(items, id);
    FieldFollows(if edit.AddEdge? || edit.RemoveEdge? then items[i].out else items[i].agents, v);
    assert IsNamed(items[i], id) && r[i].Workflow?;
  }

  lemma FieldFollows(f: Field, v: string)
    ensures ListFollows(f, if FieldHas(f, v) then f else FieldAdd(f, v), v, true)
    ensures ListFollows(f, if FieldHas(f, v) then FieldRemove(f, v) else f, v, false)
  {
    if FieldHas(f, v) { var k := FirstGoes(f.entries, Text(v)); }
  }

  // ---- renames ----

  /** The list's texts are renamed one by one; a field that is no list stays as it is. */
  ghost predicate FieldRenamed(before: Field, after: Field, a: string, b: string) {
    if before.List? then
      && after.List? && |after.entries| == |before.entries|
      && forall k :: 0 <= k < |before.entries| ==> after.entries[k] == if before.entries[k] == Text(a) then Text(b) else before.entries[k]
    else after == before
  }

  ghost predicate TransitionsRenamed(before: seq<Transition>, after: seq<Transition>, a: string, b: string) {
    && |after| == |before|
    && forall k :: 0 <= k < |before| ==> after[k] == if before[k] == To(a) then To(b) else before[k]
  }

  /**
   * A rename changes the id of the first workflow of that name, and in every workflow the entries of `out` and the
   * transition targets that are that name. Agents, other texts and items that are no maps stay as they are.
   */
  lemma RenameIsLocal(items: seq<Item>, a: string, b: string, i: nat)
    requires Apply(Some(items), RenameWorkflow(a, b)).Ok? && i < |items|
    ensures var r := Apply(Some(items), RenameWorkflow(a, b)).value;
      && |r| == |items|
      && if items[i].NoMap? then r[i] == items[i]
         else
           && r[i].Workflow? && r[i].agents == items[i].agents
           && r[i].id == (if IsNamed(items[i], a) && forall j :: 0 <= j < i ==> !IsNamed(items[j], a) then Some(b) else items[i].id)
           && FieldRenamed(items[i].out, r[i].out, a, b) && TransitionsRenamed(items[i].transitions, r[i].transitions, a, b)
  {
    FirstIs(items, a);
  }
}
