/** The contract a capsule is checked against (internal/capsule/validate.go). */
module Validate {
  import opened Wrappers
  import opened Utf8
  import opened Fidelity
  import Encoding = CapsuleIdentity

  const SCHEMA := "reinstate.continuity-capsule/v1"
  const MAX_EVENTS: nat := 20000
  const MAX_BLOCKS_PER_EVENT: nat := 256
  const MAX_TEXT_BLOCK_BYTES: nat := 262144
  const MAX_CAPSULE_BYTES: nat := 8388608
  const MAX_TASK_FIELD_RUNES: nat := 8192
  const MAX_FILE_REFERENCES: nat := 512
  const MAX_REDACTIONS_PER_EVENT: nat := 256

  datatype Task = Task(
    goal: string, latestUserIntent: string, nextAction: string,
    recentUserMessages: seq<string>, constraints: seq<string>, decisions: seq<string>,
    rejectedApproaches: seq<string>, completed: seq<string>, pending: seq<string>, changedFiles: seq<string>,
    filesTouched: seq<string>, tests: seq<string>, openQuestions: seq<string>)

  datatype Workspace = Workspace(changedFiles: seq<string>, tests: seq<string>)

  datatype Capsule = Capsule(
    schema: string, fidelity: Report, task: Task, workspace: Workspace, events: seq<Event>)

  // ---------------------------------------------------------------------------
  // The contract
  // ---------------------------------------------------------------------------

  ghost predicate FidelityOk(r: Report) {
    && r.mode == STRUCTURED_HANDOFF
    && (forall i :: 0 <= i < |r.components| ==> Valid(r.components[i].portability))
    && OverallOf(r.components, r.overall)
  }

  ghost predicate IsCall(events: seq<Event>, id: string) {
    exists i :: 0 <= i < |events| && events[i].kind == "tool_call" && events[i].callId == id
  }

  /** What is asked of one event by itself. */
  ghost predicate EventFits(e: Event) {
    && e.id != "" && e.portability in CLASSES && (e.reason == "" ==> e.portability == Exact)
    && |e.blocks| <= 256 && e.redactions <= 256
    && forall j :: 0 <= j < |e.blocks| ==> |EncodeAll(e.blocks[j].text)| <= 262144
  }

  /** A result answers some call of this conversation, made before it or after. */
  ghost predicate Answers(events: seq<Event>, e: Event) {
    e.kind == "tool_result" ==> e.linkedCallId != "" && IsCall(events, e.linkedCallId)
  }

  ghost predicate EventsOk(events: seq<Event>) {
    && |events| <= 20000
    && (forall i :: 0 <= i < |events| ==> EventFits(events[i]) && Answers(events, events[i]))
    && (forall i, j :: 0 <= i < j < |events| ==> events[i].id != events[j].id && events[i].order <= events[j].order)
  }

  /** Text and the like that names no file. */
  ghost predicate NoFile(b: Block) {
    b.path == "" && b.kind !in {"attachment", "ref"}
  }

  ghost function FilesIn(blocks: seq<Block>): nat {
    if blocks == [] then 0
    else FilesIn(blocks[..|blocks| - 1]) + if NoFile(blocks[|blocks| - 1]) then 0 else 1
  }

  ghost function FileReferences(events: seq<Event>): nat {
    if events == [] then 0
    else FileReferences(events[..|events| - 1]) + FilesIn(events[|events| - 1].blocks)
  }

  /** The files the workspace and the task list, and those the events refer to. */
  ghost function AllReferences(c: Capsule): nat {
    |c.workspace.changedFiles| + |c.workspace.tests| + |c.task.changedFiles| + |c.task.filesTouched|
    + FileReferences(c.events)
  }

  ghost predicate Short(texts: seq<string>) {
    forall i :: 0 <= i < |texts| ==> |texts[i]| <= 8192
  }

  ghost predicate TaskOk(t: Task) {
    && |t.goal| <= 8192 && |t.latestUserIntent| <= 8192 && |t.nextAction| <= 8192
    && Short(t.recentUserMessages) && Short(t.constraints) && Short(t.decisions) && Short(t.rejectedApproaches)
    && Short(t.completed) && Short(t.pending) && Short(t.changedFiles) && Short(t.filesTouched) && Short(t.tests)
    && Short(t.openQuestions)
  }

  /** All that is asked but of the encoding. */
  ghost predicate Sound(c: Capsule) {
    && c.schema == "reinstate.continuity-capsule/v1" && FidelityOk(c.fidelity) && TaskOk(c.task)
    && AllReferences(c) <= 512 && EventsOk(c.events)
  }

  /** `encoded` is the canonical encoding, if there is one. */
  ghost predicate Meets(c: Capsule, encoded: Option<string>) {
    Sound(c) && encoded.Some? && |EncodeAll(encoded.value)| <= 8388608
  }

  // ---------------------------------------------------------------------------
  // Checking it
  // ---------------------------------------------------------------------------

  method CountFileReferences(c: Capsule) returns (n: nat)
    ensures n == AllReferences(c)
  {
    n := |c.workspace.changedFiles| + |c.workspace.tests|;
    n := n + |c.task.changedFiles|;
    n := n + |c.task.filesTouched|;
    ghost var listed := n;
    for i := 0 to |c.events|
      invariant n == listed + FileReferences(c.events[..i])
    {
      var blocks := c.events[i].blocks;
      for j := 0 to |blocks|
        invariant n == listed + FileReferences(c.events[..i]) + FilesIn(blocks[..j])
      {
        assert blocks[..j + 1][..j] == blocks[..j];
        if blocks[j].path != "" || blocks[j].kind == "attachment" || blocks[j].kind == "ref" {
          n := n + 1;
        }
      }
      assert blocks[..|blocks|] == blocks && c.events[..i + 1][..i] == c.events[..i];
    }
    assert c.events[..|c.events|] == c.events;
  }

  method FidelityFits(r: Report) returns (ok: bool)
    ensures ok <==> FidelityOk(r)
  {
    if r.mode != STRUCTURED_HANDOFF {
      return false;
    }
    for i := 0 to |r.components|
      invariant forall j :: 0 <= j < i ==> Valid(r.components[j].portability)
    {
      if !Valid(r.components[i].portability) {
        return false;
      }
    }
    var overall := WorstOfComponents(r.components);
    OverallUnique(r.components, overall, r.overall);
    return r.overall == overall;
  }

  lemma OverallUnique(cs: seq<Component>, p: Portability, q: Portability)
    requires forall i :: 0 <= i < |cs| ==> Valid(cs[i].portability)
    requires OverallOf(cs, p)
    ensures OverallOf(cs, q) <==> p == q
  {}

  /** The calls the results may answer. */
  method CallIds(events: seq<Event>) returns (ids: set<string>)
    ensures forall id :: id in ids <==> id != "" && IsCall(events, id)
  {
    ids := {};
    for i := 0 to |events|
      invariant forall id :: id in ids ==> id != "" && IsCall(events, id)
      invariant forall j :: 0 <= j < i && events[j].kind == "tool_call" && events[j].callId != "" ==>
        events[j].callId in ids
    {
      if events[i].kind == "tool_call" && events[i].callId != "" {
        ids := ids + {events[i].callId};
      }
    }
  }

  /** In order, and none twice: `seen` are the identities of the events so far. */
  ghost predicate Ordered(events: seq<Event>, n: nat, seen: set<string>) {
    && n <= |events|
    && (forall i :: 0 <= i < n ==> events[i].id in seen)
    && (forall id :: id in seen ==> exists i :: 0 <= i < n && events[i].id == id)
    && (forall i, j :: 0 <= i < j < n ==> events[i].id != events[j].id && events[i].order <= events[j].order)
  }

  lemma OrderedOne(events: seq<Event>, n: nat, seen: set<string>)
    requires Ordered(events, n, seen) && n < |events|
    requires events[n].id !in seen && (n > 0 ==> events[n - 1].order <= events[n].order)
    ensures Ordered(events, n + 1, seen + {events[n].id})
  {
    var seen' := seen + {events[n].id};
    forall id | id in seen' ensures exists i :: 0 <= i < n + 1 && events[i].id == id {
      if id in seen {
        var i :| 0 <= i < n && events[i].id == id;
        assert events[i].id == id;
      } else {
        assert events[n].id == id;
      }
    }
  }

  method EventFit(e: Event) returns (ok: bool)
    ensures ok <==> EventFits(e)
  {
    hide Utf8Length, EncodeAll;
    ClassesAreValid(e.portability);
    if !Valid(e.portability) {
      return false;
    }
    if e.portability != Exact && e.reason == "" {
      return false;
    }
    if e.id == "" || |e.blocks| > MAX_BLOCKS_PER_EVENT || e.redactions > MAX_REDACTIONS_PER_EVENT {
      return false;
    }
    for j := 0 to |e.blocks|
      invariant forall k :: 0 <= k < j ==> |EncodeAll(e.blocks[k].text)| <= MAX_TEXT_BLOCK_BYTES
    {
      Utf8LengthIs(e.blocks[j].text);
      if Utf8Length(e.blocks[j].text) > MAX_TEXT_BLOCK_BYTES {
        return false;
      }
    }
    return true;
  }

  method EventsFit(events: seq<Event>) returns (ok: bool)
    requires |events| <= MAX_EVENTS
    ensures ok <==> EventsOk(events)
  {
    hide EventFits, IsCall;
    var callIds := CallIds(events);
    var seen: set<string> := {};
    for i := 0 to |events|
      invariant Ordered(events, i, seen)
      invariant forall j :: 0 <= j < i ==> EventFits(events[j]) && Answers(events, events[j])
    {
      var e := events[i];
      var fits := EventFit(e);
      if !fits {
        return false;
      }
      if e.id in seen {
        ghost var j :| 0 <= j < i && events[j].id == e.id;
        return false;
      }
      if i > 0 && e.order < events[i - 1].order {
        return false;
      }
      if e.kind == "tool_result" && e.linkedCallId !in callIds {
        assert !Answers(events, events[i]);
        return false;
      }
      OrderedOne(events, i, seen);
      seen := seen + {e.id};
    }
    return true;
  }

  method ListFits(items: seq<string>) returns (ok: bool)
    ensures ok <==> Short(items)
  {
    for i := 0 to |items|
      invariant forall j :: 0 <= j < i ==> |items[j]| <= MAX_TASK_FIELD_RUNES
    {
      if |items[i]| > MAX_TASK_FIELD_RUNES {
        return false;
      }
    }
    return true;
  }

  method TaskFits(t: Task) returns (ok: bool)
    ensures ok <==> TaskOk(t)
  {
    if |t.goal| > MAX_TASK_FIELD_RUNES {
      return false;
    }
    if |t.latestUserIntent| > MAX_TASK_FIELD_RUNES {
      return false;
    }
    if |t.nextAction| > MAX_TASK_FIELD_RUNES {
      return false;
    }
    var lists := [t.recentUserMessages, t.constraints, t.decisions, t.rejectedApproaches, t.completed, t.pending,
      t.changedFiles, t.filesTouched, t.tests, t.openQuestions];
    for i := 0 to |lists|
      invariant forall j :: 0 <= j < i ==> Short(lists[j])
    {
      ok := ListFits(lists[i]);
      if !ok {
        return;
      }
    }
    assert Short(lists[0]) && Short(lists[1]) && Short(lists[2]) && Short(lists[3]) && Short(lists[4]);
    assert Short(lists[5]) && Short(lists[6]) && Short(lists[7]) && Short(lists[8]) && Short(lists[9]);
    return true;
  }

  method Fits(c: Capsule) returns (ok: bool)
    ensures ok <==> Sound(c)
  {
    hide EventsOk, FidelityOk, FileReferences, TaskOk;
    if c.schema != SCHEMA {
      return false;
    }
    var fidelityFits := FidelityFits(c.fidelity);
    if !fidelityFits {
      return false;
    }
    if |c.events| > MAX_EVENTS {
      TooMany(c.events);
      return false;
    }
    var taskFits := TaskFits(c.task);
    if !taskFits {
      return false;
    }
    var n := CountFileReferences(c);
    if n > MAX_FILE_REFERENCES {
      return false;
    }
    ok := EventsFit(c.events);
  }

  /** Validation accepts exactly the capsules that meet the contract. It encodes those that
      meet all of it but for the encoding, and so truncates their times, in the caller's own
      events. `header` and `events` are the capsule as it is encoded. */
  method Validate(w: Encoding.World, c: Capsule, header: Encoding.Header, events: array<Encoding.Event>)
      returns (ok: bool)
    modifies events
    ensures ok <==> Meets(c, Encoding.Canonical(w, Encoding.Capsule(header, old(events[..]))))
    ensures events[..] == if Sound(c) then Encoding.NormalizeEvents(old(events[..])) else old(events[..])
  {
    hide Sound, Encoding.Canonical, Utf8Length, EncodeAll;
    ok := Fits(c);
    if !ok {
      return;
    }
    var bytes := Encoding.CanonicalBytes(w, header, events);
    if bytes.Some? { Utf8LengthIs(bytes.value); }
    return bytes.Some? && Utf8Length(bytes.value) <= MAX_CAPSULE_BYTES;
  }

  /** Validating twice is validating once. */
  lemma ValidatedStays(w: Encoding.World, c: Capsule, header: Encoding.Header, events: seq<Encoding.Event>)
    ensures Meets(c, Encoding.Canonical(w, Encoding.Capsule(header, Encoding.NormalizeEvents(events))))
      <==> Meets(c, Encoding.Canonical(w, Encoding.Capsule(header, events)))
  {
    Encoding.EncodingFirstKeepsID(w, Encoding.Capsule(header, events));
  }

  lemma TooMany(events: seq<Event>)
    requires |events| > MAX_EVENTS
    ensures !EventsOk(events)
  {}

  // ---------------------------------------------------------------------------
  // Aggregation and validation agree
  // ---------------------------------------------------------------------------

  /** Whatever was aggregated, valid or not, its report passes the fidelity checks; and of the
      reports with those components and that mode, no other does. */
  lemma AggregatedReportPasses(cs: seq<Component>, r: Report, overall: Portability)
    requires Aggregates(cs, r)
    ensures FidelityOk(r.(overall := overall)) <==> overall == r.overall
  {}
}
