/** Surgical edits of the workflow graph in a lifecycle document: ids, `out`, `agents` and transition targets. */
module GraphEdit {
  import opened Wrappers

  // ---- the document ----

  /** An item of a list: a text scalar, or any other node. */
  datatype Entry = Text(value: string) | Node(source: string)

  /** A field of a workflow: absent, a list, or something that is no list. */
  datatype Field = Absent | List(entries: seq<Entry>) | NoList(source: string)

  datatype Transition = To(target: string) | Untargeted

  /** An item of lifecycle.workflows; an item that is no map is skipped by every edit. */
  datatype Item = Workflow(id: Option<string>, out: Field, agents: Field, transitions: seq<Transition>) | NoMap(source: string)

  /** None when lifecycle.workflows is missing or no list, or the text is no YAML. */
  type Source = Option<seq<Item>>

  datatype Edit =
    | RenameWorkflow(oldId: string, newId: string)
    | AddEdge(tail: string, head: string)
    | RemoveEdge(tail: string, head: string)
    | AddAgent(workflow: string, agent: string)
    | RemoveAgent(workflow: string, agent: string)

  datatype Error =
    | ArgumentMissing
    | IdenticalNames
    | InvalidId(id: string)
    | SelfEdge
    | NoWorkflows
    | NotFound(id: string)
    | AlreadyExists(id: string)
    | NoEdits

  type Outcome = Result<seq<Item>, Error>

  predicate IsLetter(c: char) {
    'a' <= c <= 'z' || 'A' <= c <= 'Z'
  }

  predicate IsValidId(id: string) {
    && 0 < |id| <= 64 && IsLetter(id[0])
    && forall c <- id :: IsLetter(c) || '0' <= c <= '9' || c == '_' || c == '-'
  }

  predicate IsNamed(item: Item, id: string) {
    item.Workflow? && item.id == Some(id)
  }

  predicate HasId(items: seq<Item>, id: string) {
    exists i :: 0 <= i < |items| && IsNamed(items[i], id)
  }

  /** The first workflow of that name. */
  function Find(items: seq<Item>, id: string): (r: Option<nat>)
    ensures r.Some? ==> r.value < |items| && IsNamed(items[r.value], id)
    ensures r.Some? <==> HasId(items, id)
  {
    if items == [] then None
    else if IsNamed(items[0], id) then Some(0)
    else
      var rest := Find(items[1..], id);
      if rest.Some? then Some(rest.value + 1)
      else
        assert forall i :: 1 <= i < |items| ==> items[i] == items[1..][i - 1];
        None
  }

  // ---- what the edits do to the document ----

  function RenameText(v: string, oldId: string, newId: string): string {
    if v == oldId then newId else v
  }

  function RenameEntries(entries: seq<Entry>, oldId: string, newId: string): seq<Entry> {
    seq(|entries|, i requires 0 <= i < |entries| => if entries[i] == Text(oldId) then Text(newId) else entries[i])
  }

  function RenameField(f: Field, oldId: string, newId: string): Field {
    if f.List? then List(RenameEntries(f.entries, oldId, newId)) else f
  }

  function RenameTransitions(ts: seq<Transition>, oldId: string, newId: string): seq<Transition> {
    seq(|ts|, i requires 0 <= i < |ts| => if ts[i] == To(oldId) then To(newId) else ts[i])
  }

  function RenameReferences(item: Item, oldId: string, newId: string): Item {
    if item.NoMap? then item
    else item.(out := RenameField(item.out, oldId, newId), transitions := RenameTransitions(item.transitions, oldId, newId))
  }

  function RenameAllReferences(items: seq<Item>, oldId: string, newId: string): seq<Item> {
    seq(|items|, i requires 0 <= i < |items| => RenameReferences(items[i], oldId, newId))
  }

  predicate FieldHas(f: Field, v: string) {
    f.List? && Text(v) in f.entries
  }

  function FieldAdd(f: Field, v: string): Field {
    List((if f.List? then f.entries else []) + [Text(v)])
  }

  function RemoveFirst(entries: seq<Entry>, e: Entry): seq<Entry> {
    if entries == [] then []
    else if entries[0] == e then entries[1..]
    else [entries[0]] + RemoveFirst(entries[1..], e)
  }

  function FieldRemove(f: Field, v: string): Field {
    if f.List? then List(RemoveFirst(f.entries, Text(v))) else f
  }

  function Apply(source: Source, edit: Edit): Outcome {
    match edit
    case RenameWorkflow(a, b) =>
      if a == "" || b == "" then Err(ArgumentMissing)
      else if a == b then Err(IdenticalNames)
      else if !IsValidId(b) then Err(InvalidId(b))
      else if source.None? then Err(NoWorkflows)
      else
        var items, i := source.value, Find(source.value, a);
        if i.None? then Err(NotFound(a))
        else if HasId(items, b) then Err(AlreadyExists(b))
        else Ok(RenameAllReferences(items[i.value := items[i.value].(id := Some(b))], a, b))
    case AddEdge(a, b) =>
      if a == "" || b == "" then Err(ArgumentMissing)
      else if a == b then Err(SelfEdge)
      else if source.None? then Err(NoWorkflows)
      else
        var items, i := source.value, Find(source.value, a);
        if i.None? then Err(NotFound(a))
        else if !HasId(items, b) then Err(NotFound(b))
        else if FieldHas(items[i.value].out, b) then Ok(items)
        else Ok(items[i.value := items[i.value].(out := FieldAdd(items[i.value].out, b))])
    case RemoveEdge(a, b) =>
      if a == "" || b == "" then Err(ArgumentMissing)
      else if source.None? then Err(NoWorkflows)
      else
        var items, i := source.value, Find(source.value, a);
        if i.None? then Err(NotFound(a))
        else if !FieldHas(items[i.value].out, b) then Ok(items)
        else Ok(items[i.value := items[i.value].(out := FieldRemove(items[i.value].out, b))])
    case AddAgent(w, a) =>
      if w == "" || a == "" then Err(ArgumentMissing)
      else if source.None? then Err(NoWorkflows)
      else
        var items, i := source.value, Find(source.value, w);
        if i.None? then Err(NotFound(w))
        else if FieldHas(items[i.value].agents, a) then Ok(items)
        else Ok(items[i.value := items[i.value].(agents := FieldAdd(items[i.value].agents, a))])
    case RemoveAgent(w, a) =>
      if w == "" || a == "" then Err(ArgumentMissing)
      else if source.None? then Err(NoWorkflows)
      else
        var items, i := source.value, Find(source.value, w);
        if i.None? then Err(NotFound(w))
        else if !FieldHas(items[i.value].agents, a) then Ok(items)
        else Ok(items[i.value := items[i.value].(agents := FieldRemove(items[i.value].agents, a))])
  }

  /** A list of edits, each on the result of the one before; the first error is the whole list's. */
  function ApplyAll(source: Source, edits: seq<Edit>): Outcome
    requires edits != []
  {
    var front := edits[..|edits| - 1];
    var before := if front == [] then source else match ApplyAll(source, front) case Ok(items) => Some(items) case Err(_) => None;
    if front != [] && ApplyAll(source, front).Err? then ApplyAll(source, front)
    else Apply(before, edits[|edits| - 1])
  }

  // ---- well-formed graphs ----

  function OutOf(item: Item): seq<Entry> {
    if item.Workflow? && item.out.List? then item.out.entries else []
  }

  ghost predicate UniqueIds(items: seq<Item>) {
    forall i, j :: 0 <= i < j < |items| && items[i].Workflow? && items[j].Workflow? && items[i].id.Some? ==> items[i].id != items[j].id
  }

  predicate ItemResolves(items: seq<Item>, item: Item) {
    && (forall e <- OutOf(item) :: e.Text? ==> HasId(items, e.value))
    && (item.Workflow? ==> forall t <- item.transitions :: t.To? ==> HasId(items, t.target))
  }

  predicate NoTwice(entries: seq<Entry>) {
    forall j, k :: 0 <= j < k < |entries| && entries[j].Text? ==> entries[j] != entries[k]
  }

  predicate CleanOut(item: Item) {
    var out := OutOf(item);
    && NoTwice(out)
    && (item.Workflow? && item.id.Some? ==> Text(item.id.value) !in out)
  }

  /** Ids are unique, every target resolves, and no `out` holds a duplicate or its own workflow. */
  ghost predicate WellFormed(items: seq<Item>) {
    UniqueIds(items) && (forall item <- items :: ItemResolves(items, item)) && forall item <- items :: CleanOut(item)
  }

  /** The same workflows in the same places, up to the edit's renaming. */
  ghost predicate SameOrder(items: seq<Item>, r: seq<Item>, edit: Edit) {
    && |r| == |items|
    && forall i :: 0 <= i < |items| ==>
      (r[i].Workflow? <==> items[i].Workflow?) && (items[i].NoMap? ==> r[i] == items[i])
      && (items[i].Workflow? ==>
            r[i].id == (if edit.RenameWorkflow? && items[i].id == Some(edit.oldId) then Some(edit.newId) else items[i].id))
  }

  // ---- rename ----

  /** The document with one name replaced everywhere. */
  function Substitute(items: seq<Item>, a: string, b: string): seq<Item> {
    seq(|items|, i requires 0 <= i < |items| =>
      var r := RenameReferences(items[i], a, b);
      if IsNamed(r, a) then r.(id := Some(b)) else r)
  }

  lemma OnlyOneIsNamed(items: seq<Item>, i: nat, j: nat, id: string)
    requires UniqueIds(items) && i < |items| && j < |items| && IsNamed(items[i], id) && IsNamed(items[j], id)
    ensures i == j
  {
  }

  /** A successful rename is exactly substitution. */
  lemma RenameIsSubstitution(items: seq<Item>, a: string, b: string)
    requires UniqueIds(items) && Apply(Some(items), RenameWorkflow(a, b)).Ok?
    ensures Apply(Some(items), RenameWorkflow(a, b)).value == Substitute(items, a, b)
  {
    var i := Find(items, a).value;
    forall j: nat | j < |items| && IsNamed(items[j], a) ensures j == i {
      OnlyOneIsNamed(items, i, j, a);
    }
  }

  /** A name that nothing refers to. */
  ghost predicate Unmentioned(items: seq<Item>, id: string) {
    !HasId(items, id) && forall item <- items :: Text(id) !in OutOf(item) && (item.Workflow? ==> To(id) !in item.transitions)
  }

  lemma UnknownIsUnmentioned(items: seq<Item>, id: string)
    requires (forall item <- items :: ItemResolves(items, item)) && !HasId(items, id)
    ensures Unmentioned(items, id)
  {
  }

  lemma SubstituteBackItem(item: Item, a: string, b: string)
    requires item.Workflow? && !IsNamed(item, b) && Text(b) !in OutOf(item) && To(b) !in item.transitions
    ensures RenameReferences(RenameReferences(item, a, b), b, a) == item
  {
    if item.out.List? {
      assert RenameEntries(RenameEntries(item.out.entries, a, b), b, a) == item.out.entries;
    }
    assert RenameTransitions(RenameTransitions(item.transitions, a, b), b, a) == item.transitions;
  }

  lemma SubstituteBack(items: seq<Item>, a: string, b: string)
    requires Unmentioned(items, b)
    ensures Substitute(Substitute(items, a, b), b, a) == items
  {
    var s := Substitute(items, a, b);
    forall i | 0 <= i < |items| ensures Substitute(s, b, a)[i] == items[i] {
      assert items[i] in items && !IsNamed(items[i], b);
      if items[i].Workflow? {
        SubstituteBackItem(items[i], a, b);
      }
    }
  }

  lemma SubstituteKeepsUnique(items: seq<Item>, a: string, b: string)
    requires UniqueIds(items) && !HasId(items, b)
    ensures UniqueIds(Substitute(items, a, b))
  {
    var s := Substitute(items, a, b);
    forall i, j | 0 <= i < j < |s| && s[i].Workflow? && s[j].Workflow? && s[i].id.Some? ensures s[i].id != s[j].id {
      assert !IsNamed(items[i], b) && !IsNamed(items[j], b);
      assert items[i].id != items[j].id;
    }
  }

  lemma SubstitutedIds(items: seq<Item>, a: string, b: string, id: string)
    requires a != b
    ensures HasId(Substitute(items, a, b), id) <==>
      if id == a then false else if id == b then HasId(items, a) || HasId(items, b) else HasId(items, id)
  {
    var s := Substitute(items, a, b);
    if HasId(s, id) {
      var i :| 0 <= i < |s| && IsNamed(s[i], id);
      assert IsNamed(items[i], id) || IsNamed(items[i], a);
    }
    if id != a && HasId(items, id) {
      var i :| 0 <= i < |items| && IsNamed(items[i], id);
      assert IsNamed(s[i], id);
    }
    if id == b && HasId(items, a) {
      var i :| 0 <= i < |items| && IsNamed(items[i], a);
      assert IsNamed(s[i], b);
    }
  }

  /** Renaming back restores the document, and is refused exactly when the old name is not a legal id. */
  lemma RenameBackRestores(items: seq<Item>, a: string, b: string)
    requires WellFormed(items) && Apply(Some(items), RenameWorkflow(a, b)).Ok?
    ensures var r := Apply(Some(items), RenameWorkflow(a, b)).value;
      Apply(Some(r), RenameWorkflow(b, a)) == if IsValidId(a) then Ok(items) else Err(InvalidId(a))
  {
    var r := Substitute(items, a, b);
    RenameIsSubstitution(items, a, b);
    if IsValidId(a) {
      SubstitutedIds(items, a, b, a);
      SubstitutedIds(items, a, b, b);
      SubstituteKeepsUnique(items, a, b);
      UnknownIsUnmentioned(items, b);
      SubstituteBack(items, a, b);
      RenameIsSubstitution(r, b, a);
    }
  }

  // ---- every edit keeps the graph well-formed ----

  lemma HasIdAfter(items: seq<Item>, r: seq<Item>, edit: Edit, id: string)
    requires SameOrder(items, r, edit) && !edit.RenameWorkflow?
    ensures HasId(r, id) <==> HasId(items, id)
  {
    if HasId(items, id) {
      var i :| 0 <= i < |items| && IsNamed(items[i], id);
      assert IsNamed(r[i], id);
    }
  }

  lemma UniqueIdsAfter(items: seq<Item>, r: seq<Item>, edit: Edit)
    requires UniqueIds(items) && SameOrder(items, r, edit) && !edit.RenameWorkflow?
    ensures UniqueIds(r)
  {
    forall i, j | 0 <= i < j < |r| && r[i].Workflow? && r[j].Workflow? && r[i].id.Some? ensures r[i].id != r[j].id {
      assert items[i].id != items[j].id;
    }
  }

  /** Replacing one workflow by another of the same name whose targets resolve keeps the graph well-formed. */
  lemma ReplaceOne(items: seq<Item>, i: nat, item: Item, edit: Edit)
    requires WellFormed(items) && i < |items| && items[i].Workflow? && !edit.RenameWorkflow?
    requires item.Workflow? && item.id == items[i].id && ItemResolves(items, item) && CleanOut(item)
    ensures WellFormed(items[i := item]) && SameOrder(items, items[i := item], edit)
  {
    var r := items[i := item];
    assert SameOrder(items, r, edit);
    UniqueIdsAfter(items, r, edit);
    forall it <- r ensures ItemResolves(r, it) && CleanOut(it) {
      assert it == item || it in items;
      assert ItemResolves(items, it);
      forall id: string ensures HasId(items, id) ==> HasId(r, id) { HasIdAfter(items, r, edit, id); }
    }
  }

  lemma {:induction false} RemoveFirstKeepsOthers(entries: seq<Entry>, e: Entry)
    ensures forall x <- RemoveFirst(entries, e) :: x in entries
    ensures forall x <- entries :: x != e ==> x in RemoveFirst(entries, e)
  {
    if entries != [] && entries[0] != e {
      RemoveFirstKeepsOthers(entries[1..], e);
    }
  }

  lemma {:induction false} RemoveFirstKeepsClean(entries: seq<Entry>, e: Entry)
    requires NoTwice(entries)
    ensures NoTwice(RemoveFirst(entries, e))
    ensures e.Text? ==> e !in RemoveFirst(entries, e)
  {
    if entries != [] {
      var rest := entries[1..];
      assert NoTwice(rest);
      if entries[0] == e {
        assert e.Text? ==> e !in rest;
      } else {
        RemoveFirstKeepsClean(rest, e);
        RemoveFirstKeepsOthers(rest, e);
        assert entries[0].Text? ==> entries[0] !in rest;
      }
    }
  }

  lemma AddEdgeKeeps(items: seq<Item>, a: string, b: string)
    requires WellFormed(items) && Apply(Some(items), AddEdge(a, b)).Ok?
    ensures WellFormed(Apply(Some(items), AddEdge(a, b)).value)
    ensures SameOrder(items, Apply(Some(items), AddEdge(a, b)).value, AddEdge(a, b))
  {
    var i := Find(items, a).value;
    var item := items[i];
    assert item in items && ItemResolves(items, item) && CleanOut(item);
    if !FieldHas(item.out, b) {
      ReplaceOne(items, i, item.(out := FieldAdd(item.out, b)), AddEdge(a, b));
    }
  }

  lemma RemoveEdgeKeeps(items: seq<Item>, a: string, b: string)
    requires WellFormed(items) && Apply(Some(items), RemoveEdge(a, b)).Ok?
    ensures WellFormed(Apply(Some(items), RemoveEdge(a, b)).value)
    ensures SameOrder(items, Apply(Some(items), RemoveEdge(a, b)).value, RemoveEdge(a, b))
  {
    var i := Find(items, a).value;
    var item := items[i];
    assert item in items && ItemResolves(items, item) && CleanOut(item);
    if FieldHas(item.out, b) {
      RemoveFirstKeepsClean(item.out.entries, Text(b));
      RemoveFirstKeepsOthers(item.out.entries, Text(b));
      ReplaceOne(items, i, item.(out := FieldRemove(item.out, b)), RemoveEdge(a, b));
    }
  }

  lemma AgentEditKeeps(items: seq<Item>, i: nat, agents: Field, edit: Edit)
    requires WellFormed(items) && i < |items| && items[i].Workflow? && !edit.RenameWorkflow?
    ensures WellFormed(items[i := items[i].(agents := agents)]) && SameOrder(items, items[i := items[i].(agents := agents)], edit)
  {
    assert items[i] in items && ItemResolves(items, items[i]) && CleanOut(items[i]);
    ReplaceOne(items, i, items[i].(agents := agents), edit);
  }

  lemma RenamedItemIsClean(items: seq<Item>, item: Item, a: string, b: string)
    requires a != b && Unmentioned(items, b) && item in items && ItemResolves(items, item) && CleanOut(item)
    ensures var r := RenameReferences(item, a, b);
      CleanOut(if IsNamed(r, a) then r.(id := Some(b)) else r)
  {
    assert forall j :: 0 <= j < |OutOf(item)| ==> OutOf(item)[j] in OutOf(item);
  }

  lemma RenamedItemResolves(items: seq<Item>, item: Item, a: string, b: string)
    requires a != b && HasId(items, a) && ItemResolves(items, item)
    ensures ItemResolves(Substitute(items, a, b), RenameReferences(item, a, b))
  {
    forall id: string ensures HasId(items, id) ==> HasId(Substitute(items, a, b), RenameText(id, a, b)) {
      SubstitutedIds(items, a, b, RenameText(id, a, b));
    }
    var r := RenameReferences(item, a, b);
    if item.Workflow? {
      forall t <- r.transitions | t.To? ensures HasId(Substitute(items, a, b), t.target) {
        var k :| 0 <= k < |r.transitions| && r.transitions[k] == t;
        assert item.transitions[k] in item.transitions && t.target == RenameText(item.transitions[k].target, a, b);
      }
      forall e <- OutOf(r) | e.Text? ensures HasId(Substitute(items, a, b), e.value) {
        var k :| 0 <= k < |OutOf(r)| && OutOf(r)[k] == e;
        assert OutOf(item)[k] in OutOf(item) && e.value == RenameText(OutOf(item)[k].value, a, b);
      }
    }
  }

  lemma RenameKeeps(items: seq<Item>, a: string, b: string)
    requires WellFormed(items) && Apply(Some(items), RenameWorkflow(a, b)).Ok?
    ensures WellFormed(Apply(Some(items), RenameWorkflow(a, b)).value)
    ensures SameOrder(items, Apply(Some(items), RenameWorkflow(a, b)).value, RenameWorkflow(a, b))
  {
    var r := Substitute(items, a, b);
    RenameIsSubstitution(items, a, b);
    SubstituteKeepsUnique(items, a, b);
    UnknownIsUnmentioned(items, b);
    forall item <- r ensures ItemResolves(r, item) && CleanOut(item) {
      var k :| 0 <= k < |r| && r[k] == item;
      assert items[k] in items;
      RenamedItemIsClean(items, items[k], a, b);
      RenamedItemResolves(items, items[k], a, b);
    }
  }

  lemma ApplyKeepsWellFormed(items: seq<Item>, edit: Edit)
    requires WellFormed(items) && Apply(Some(items), edit).Ok?
    ensures WellFormed(Apply(Some(items), edit).value) && SameOrder(items, Apply(Some(items), edit).value, edit)
  {
    match edit
    case RenameWorkflow(a, b) => RenameKeeps(items, a, b);
    case AddEdge(a, b) => AddEdgeKeeps(items, a, b);
    case RemoveEdge(a, b) => RemoveEdgeKeeps(items, a, b);
    case AddAgent(w, a) =>
      var i := Find(items, w).value;
      AgentEditKeeps(items, i, FieldAdd(items[i].agents, a), edit);
    case RemoveAgent(w, a) =>
      var i := Find(items, w).value;
      AgentEditKeeps(items, i, FieldRemove(items[i].agents, a), edit);
  }

  /** What a workflow's id has become after a list of edits: each renaming in turn. */
  function RenamedBy(edits: seq<Edit>, id: Option<string>): Option<string> {
    if edits == [] then id
    else
      var before, edit := RenamedBy(edits[..|edits| - 1], id), edits[|edits| - 1];
      if edit.RenameWorkflow? && before == Some(edit.oldId) then Some(edit.newId) else before
  }

  /** The same workflows in the same places, each under the name the renamings give it. */
  ghost predicate SameOrderAfter(items: seq<Item>, r: seq<Item>, edits: seq<Edit>) {
    && |r| == |items|
    && forall i :: 0 <= i < |items| ==>
      (r[i].Workflow? <==> items[i].Workflow?) && (items[i].NoMap? ==> r[i] == items[i])
      && (items[i].Workflow? ==> r[i].id == RenamedBy(edits, items[i].id))
  }

  lemma OrderAfterOneMore(items: seq<Item>, mid: seq<Item>, r: seq<Item>, edits: seq<Edit>)
    requires edits != [] && SameOrderAfter(items, mid, edits[..|edits| - 1]) && SameOrder(mid, r, edits[|edits| - 1])
    ensures SameOrderAfter(items, r, edits)
  {
  }

  /** Any list of edits that goes through leaves a well-formed graph well-formed, with its workflows in their order. */
  lemma {:induction false} EditsKeepWellFormed(items: seq<Item>, edits: seq<Edit>)
    requires WellFormed(items) && edits != [] && ApplyAll(Some(items), edits).Ok?
    ensures WellFormed(ApplyAll(Some(items), edits).value)
    ensures SameOrderAfter(items, ApplyAll(Some(items), edits).value, edits)
  {
    hide WellFormed, SameOrder, SameOrderAfter, Apply;
    var front, last := edits[..|edits| - 1], edits[|edits| - 1];
    if front == [] {
      ApplyKeepsWellFormed(items, last);
      NothingRenamed(items);
      OrderAfterOneMore(items, items, Apply(Some(items), last).value, edits);
    } else {
      EditsKeepWellFormed(items, front);
      var mid := ApplyAll(Some(items), front).value;
      ApplyKeepsWellFormed(mid, last);
      OrderAfterOneMore(items, mid, Apply(Some(mid), last).value, edits);
    }
  }

  lemma NothingRenamed(items: seq<Item>)
    ensures SameOrderAfter(items, items, [])
  {
  }

  // ---- edges ----

  ghost predicate HasEdge(items: seq<Item>, a: string, b: string) {
    exists i :: 0 <= i < |items| && IsNamed(items[i], a) && Text(b) in OutOf(items[i])
  }

  /** Adding an edge adds that edge and no other. */
  lemma AddEdgeAddsIt(items: seq<Item>, a: string, b: string, x: string, y: string)
    requires Apply(Some(items), AddEdge(a, b)).Ok?
    ensures HasEdge(Apply(Some(items), AddEdge(a, b)).value, x, y) <==> HasEdge(items, x, y) || (x == a && y == b)
  {
    var r := Apply(Some(items), AddEdge(a, b)).value;
    var i := Find(items, a).value;
    assert IsNamed(r[i], a) && Text(b) in OutOf(r[i]);
    if HasEdge(items, x, y) {
      var j :| 0 <= j < |items| && IsNamed(items[j], x) && Text(y) in OutOf(items[j]);
      assert IsNamed(r[j], x) && Text(y) in OutOf(r[j]);
    }
    if HasEdge(r, x, y) {
      var j :| 0 <= j < |r| && IsNamed(r[j], x) && Text(y) in OutOf(r[j]);
      assert IsNamed(items[j], x);
    }
  }

  /** Removing an edge removes that edge and no other. */
  lemma RemoveEdgeRemovesIt(items: seq<Item>, a: string, b: string, x: string, y: string)
    requires WellFormed(items) && Apply(Some(items), RemoveEdge(a, b)).Ok?
    ensures HasEdge(Apply(Some(items), RemoveEdge(a, b)).value, x, y) <==> HasEdge(items, x, y) && !(x == a && y == b)
  {
    var r := Apply(Some(items), RemoveEdge(a, b)).value;
    var i := Find(items, a).value;
    assert items[i] in items && CleanOut(items[i]);
    RemoveFirstKeepsClean(OutOf(items[i]), Text(b));
    RemoveFirstKeepsOthers(OutOf(items[i]), Text(b));
    if HasEdge(r, x, y) {
      var j :| 0 <= j < |r| && IsNamed(r[j], x) && Text(y) in OutOf(r[j]);
      assert IsNamed(items[j], x) && Text(y) in OutOf(items[j]);
      if x == a {
        OnlyOneIsNamed(items, i, j, a);
      }
    }
    if HasEdge(items, x, y) && !(x == a && y == b) {
      var j :| 0 <= j < |items| && IsNamed(items[j], x) && Text(y) in OutOf(items[j]);
      assert IsNamed(r[j], x) && Text(y) in OutOf(r[j]);
    }
  }

  // ---- adding and removing again ----

  lemma {:induction false} RemoveLastAdded(entries: seq<Entry>, e: Entry)
    requires e !in entries
    ensures RemoveFirst(entries + [e], e) == entries
  {
    if entries != [] {
      assert (entries + [e])[1..] == entries[1..] + [e];
      RemoveLastAdded(entries[1..], e);
    }
  }

  lemma FieldRestored(f: Field, v: string)
    requires !FieldHas(f, v)
    ensures FieldRemove(FieldAdd(f, v), v) == if f.List? then f else List([])
  {
    RemoveLastAdded(if f.List? then f.entries else [], Text(v));
  }

  lemma {:induction false} SameFind(items: seq<Item>, r: seq<Item>, id: string)
    requires |r| == |items| && forall i :: 0 <= i < |items| ==> (IsNamed(r[i], id) <==> IsNamed(items[i], id))
    ensures Find(r, id) == Find(items, id)
  {
    if items != [] && !IsNamed(items[0], id) {
      assert forall i :: 0 <= i < |items| - 1 ==> (IsNamed(r[1..][i], id) <==> IsNamed(items[1..][i], id));
      SameFind(items[1..], r[1..], id);
    }
  }

  /** Adding an absent edge and removing it again restores the document exactly when `out` was a list before. */
  lemma AddThenRemoveEdge(items: seq<Item>, a: string, b: string)
    requires Apply(Some(items), AddEdge(a, b)).Ok? && !FieldHas(items[Find(items, a).value].out, b)
    ensures var i := Find(items, a).value;
      var again := Apply(Some(Apply(Some(items), AddEdge(a, b)).value), RemoveEdge(a, b));
      && again.Ok?
      && (again.value == items <==> items[i].out.List?)
      && (!items[i].out.List? ==> again.value == items[i := items[i].(out := List([]))])
  {
    var i := Find(items, a).value;
    var r := Apply(Some(items), AddEdge(a, b)).value;
    SameFind(items, r, a);
    FieldRestored(items[i].out, b);
    assert items[i := items[i]] == items;
    var again := Apply(Some(r), RemoveEdge(a, b)).value;
    assert again[i].out == FieldRemove(FieldAdd(items[i].out, b), b);
  }

  /** The same for a workflow's agents. */
  lemma AddThenRemoveAgent(items: seq<Item>, w: string, a: string)
    requires Apply(Some(items), AddAgent(w, a)).Ok? && !FieldHas(items[Find(items, w).value].agents, a)
    ensures var i := Find(items, w).value;
      var again := Apply(Some(Apply(Some(items), AddAgent(w, a)).value), RemoveAgent(w, a));
      && again.Ok?
      && (again.value == items <==> items[i].agents.List?)
      && (!items[i].agents.List? ==> again.value == items[i := items[i].(agents := List([]))])
  {
    var i := Find(items, w).value;
    var r := Apply(Some(items), AddAgent(w, a)).value;
    SameFind(items, r, w);
    FieldRestored(items[i].agents, a);
    assert items[i := items[i]] == items;
    var again := Apply(Some(r), RemoveAgent(w, a)).value;
    assert again[i].agents == FieldRemove(FieldAdd(items[i].agents, a), a);
  }

  // ---- the parsed document, edited in place ----

  class LifecycleDocument {
    var workflows: seq<Item>

    constructor (workflows: seq<Item>)
      ensures this.workflows == workflows
    {
      this.workflows := workflows;
    }

    /** Where the first workflow of that name is. */
    method FindWorkflowById(id: string) returns (r: Option<nat>)
      ensures r == Find(workflows, id)
    {
      ghost var all := workflows;
      for i := 0 to |workflows|
        invariant forall k :: 0 <= k < i ==> !IsNamed(workflows[k], id)
      {
        if workflows[i].Workflow? && workflows[i].id == Some(id) {
          FirstIsFound(workflows, id, i);
          return Some(i);
        }
      }
      return None;
    }

    method RenameInOut(i: nat, oldId: string, newId: string)
      requires i < |workflows| && workflows[i].Workflow?
      modifies this
      ensures workflows == old(workflows)[i := old(workflows)[i].(out := RenameField(old(workflows)[i].out, oldId, newId))]
    {
      if !workflows[i].out.List? {
        return;
      }
      var entries := workflows[i].out.entries;
      for k := 0 to |entries|
        invariant |entries| == |old(workflows)[i].out.entries|
        invariant forall j :: 0 <= j < k ==> entries[j] == RenameEntries(old(workflows)[i].out.entries, oldId, newId)[j]
        invariant forall j :: k <= j < |entries| ==> entries[j] == old(workflows)[i].out.entries[j]
      {
        if entries[k] == Text(oldId) {
          entries := entries[k := Text(newId)];
        }
      }
      assert entries == RenameEntries(old(workflows)[i].out.entries, oldId, newId);
      workflows := workflows[i := workflows[i].(out := List(entries))];
    }

    method RenameInTransitions(i: nat, oldId: string, newId: string)
      requires i < |workflows| && workflows[i].Workflow?
      modifies this
      ensures workflows == old(workflows)[i := old(workflows)[i].(
        transitions := RenameTransitions(old(workflows)[i].transitions, oldId, newId))]
    {
      var ts := workflows[i].transitions;
      for k := 0 to |ts|
        invariant |ts| == |old(workflows)[i].transitions|
        invariant forall j :: 0 <= j < k ==> ts[j] == RenameTransitions(old(workflows)[i].transitions, oldId, newId)[j]
        invariant forall j :: k <= j < |ts| ==> ts[j] == old(workflows)[i].transitions[j]
      {
        if ts[k] == To(oldId) {
          ts := ts[k := To(newId)];
        }
      }
      assert ts == RenameTransitions(old(workflows)[i].transitions, oldId, newId);
      workflows := workflows[i := workflows[i].(transitions := ts)];
    }

    method Rename(i: nat, oldId: string, newId: string)
      requires i < |workflows| && workflows[i].Workflow?
      modifies this
      ensures workflows == RenameAllReferences(old(workflows)[i := old(workflows)[i].(id := Some(newId))], oldId, newId)
    {
      workflows := workflows[i := workflows[i].(id := Some(newId))];
      ghost var start := workflows;
      for k := 0 to |workflows|
        invariant |workflows| == |start|
        invariant forall j :: 0 <= j < k ==> workflows[j] == RenameReferences(start[j], oldId, newId)
        invariant forall j :: k <= j < |start| ==> workflows[j] == start[j]
      {
        if workflows[k].Workflow? {
          RenameInOut(k, oldId, newId);
          RenameInTransitions(k, oldId, newId);
        }
      }
    }

    /** Add to a list field, making the list when there is none. */
    method AddOut(i: nat, v: string)
      requires i < |workflows| && workflows[i].Workflow?
      modifies this
      ensures workflows == old(workflows)[i := old(workflows)[i].(out := FieldAdd(old(workflows)[i].out, v))]
    {
      var out := if workflows[i].out.List? then workflows[i].out.entries else [];
      workflows := workflows[i := workflows[i].(out := List(out + [Text(v)]))];
    }

    method AddToAgents(i: nat, v: string)
      requires i < |workflows| && workflows[i].Workflow?
      modifies this
      ensures workflows == old(workflows)[i := old(workflows)[i].(agents := FieldAdd(old(workflows)[i].agents, v))]
    {
      var agents := if workflows[i].agents.List? then workflows[i].agents.entries else [];
      workflows := workflows[i := workflows[i].(agents := List(agents + [Text(v)]))];
    }
  }

  lemma {:induction false} FirstIsFound(items: seq<Item>, id: string, i: nat)
    requires i < |items| && IsNamed(items[i], id) && forall k :: 0 <= k < i ==> !IsNamed(items[k], id)
    ensures Find(items, id) == Some(i)
  {
    if i > 0 {
      assert forall k :: 0 <= k < i - 1 ==> items[1..][k] == items[k + 1];
      FirstIsFound(items[1..], id, i - 1);
    }
  }

  /** The list without the first entry equal to `e`. */
  method ScalarSeqRemove(entries: seq<Entry>, e: Entry) returns (r: seq<Entry>)
    ensures r == RemoveFirst(entries, e)
  {
    for i := 0 to |entries|
      invariant e !in entries[..i]
    {
      if entries[i] == e {
        RemovedAt(entries, e, i);
        return entries[..i] + entries[i + 1..];
      }
    }
    NothingRemoved(entries, e);
    return entries;
  }

  lemma {:induction false} RemovedAt(entries: seq<Entry>, e: Entry, i: nat)
    requires i < |entries| && entries[i] == e && e !in entries[..i]
    ensures RemoveFirst(entries, e) == entries[..i] + entries[i + 1..]
  {
    if i > 0 {
      assert entries[0] == entries[..i][0];
      assert entries[1..][..i - 1] == entries[..i][1..] && entries[1..][i..] == entries[i + 1..];
      RemovedAt(entries[1..], e, i - 1);
      assert entries[..i] == [entries[0]] + entries[..i][1..];
    }
  }

  lemma {:induction false} NothingRemoved(entries: seq<Entry>, e: Entry)
    requires e !in entries
    ensures RemoveFirst(entries, e) == entries
  {
    if entries != [] {
      NothingRemoved(entries[1..], e);
    }
  }

  method ApplyGraphEdit(source: Source, edit: Edit) returns (r: Outcome)
    ensures r == Apply(source, edit)
  {
    match edit {
      case RenameWorkflow(a, b) =>
        if a == "" || b == "" { return Err(ArgumentMissing); }
        if a == b { return Err(IdenticalNames); }
        if !IsValidId(b) { return Err(InvalidId(b)); }
        if source.None? { return Err(NoWorkflows); }
        var doc := new LifecycleDocument(source.value);
        var i := doc.FindWorkflowById(a);
        if i.None? { return Err(NotFound(a)); }
        var taken := doc.FindWorkflowById(b);
        if taken.Some? { return Err(AlreadyExists(b)); }
        doc.Rename(i.value, a, b);
        return Ok(doc.workflows);
      case AddEdge(a, b) =>
        if a == "" || b == "" { return Err(ArgumentMissing); }
        if a == b { return Err(SelfEdge); }
        if source.None? { return Err(NoWorkflows); }
        var doc := new LifecycleDocument(source.value);
        var i := doc.FindWorkflowById(a);
        if i.None? { return Err(NotFound(a)); }
        var head := doc.FindWorkflowById(b);
        if head.None? { return Err(NotFound(b)); }
        if FieldHas(doc.workflows[i.value].out, b) { return Ok(source.value); }
        doc.AddOut(i.value, b);
        return Ok(doc.workflows);
      case RemoveEdge(a, b) =>
        if a == "" || b == "" { return Err(ArgumentMissing); }
        if source.None? { return Err(NoWorkflows); }
        var doc := new LifecycleDocument(source.value);
        var i := doc.FindWorkflowById(a);
        if i.None? { return Err(NotFound(a)); }
        var wf := doc.workflows[i.value];
        if !FieldHas(wf.out, b) { return Ok(source.value); }
        var kept := ScalarSeqRemove(wf.out.entries, Text(b));
        doc.workflows := doc.workflows[i.value := wf.(out := List(kept))];
        return Ok(doc.workflows);
      case AddAgent(w, a) =>
        if w == "" || a == "" { return Err(ArgumentMissing); }
        if source.None? { return Err(NoWorkflows); }
        var doc := new LifecycleDocument(source.value);
        var i := doc.FindWorkflowById(w);
        if i.None? { return Err(NotFound(w)); }
        if FieldHas(doc.workflows[i.value].agents, a) { return Ok(source.value); }
        doc.AddToAgents(i.value, a);
        return Ok(doc.workflows);
      case RemoveAgent(w, a) =>
        if w == "" || a == "" { return Err(ArgumentMissing); }
        if source.None? { return Err(NoWorkflows); }
        var doc := new LifecycleDocument(source.value);
        var i := doc.FindWorkflowById(w);
        if i.None? { return Err(NotFound(w)); }
        var wf := doc.workflows[i.value];
        if !FieldHas(wf.agents, a) { return Ok(source.value); }
        var kept := ScalarSeqRemove(wf.agents.entries, Text(a));
        doc.workflows := doc.workflows[i.value := wf.(agents := List(kept))];
        return Ok(doc.workflows);
    }
  }

  /** All or nothing: each edit works on the text the one before emitted, and the first error is thrown. */
  method ApplyGraphEdits(source: Source, edits: seq<Edit>) returns (r: Outcome)
    ensures r == if edits == [] then Err(NoEdits) else ApplyAll(source, edits)
  {
    if |edits| == 0 {
      return Err(NoEdits);
    }
    var current := source;
    for i := 0 to |edits|
      invariant i == 0 ==> current == source
      invariant i > 0 ==> current.Some? && ApplyAll(source, edits[..i]) == Ok(current.value)
    {
      assert edits[..i + 1][..i] == edits[..i];
      r := ApplyGraphEdit(current, edits[i]);
      if r.Err? {
        FirstErrorStands(source, edits, i + 1);
        return;
      }
      current := Some(r.value);
    }
    assert edits[..|edits|] == edits;
    return Ok(current.value);
  }

  lemma {:induction false} FirstErrorStands(source: Source, edits: seq<Edit>, i: nat)
    requires 0 < i <= |edits| && ApplyAll(source, edits[..i]).Err?
    ensures ApplyAll(source, edits) == ApplyAll(source, edits[..i])
    decreases |edits|
  {
    if i == |edits| {
      assert edits[..i] == edits;
    } else {
      var front := edits[..|edits| - 1];
      assert front[..i] == edits[..i];
      FirstErrorStands(source, front, i);
    }
  }
}
