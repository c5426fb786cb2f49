/** The project record shared by every stage of the workflow, its records and
    enumerations, and the rule by which a stage's partial update (a delta) is
    merged into it. */
module State {
  import opened Wrappers

  // ---------------------------------------------------------------------
  // Enumerations, with the string literals the Python code compares against
  // ---------------------------------------------------------------------

  datatype TicketType = Feature | Bug | Chore

  datatype TicketStatus = Draft | Approved | InProgress | Review | Testing | Done | Rejected

  datatype Phase = Planning | Development | Review | Release | Complete

  datatype AgentState = Idle | Working | Done | Error

  const TypeLiterals: set<string> := {"feature", "bug", "chore"}
  const StatusLiterals: set<string> :=
    {"draft", "approved", "in_progress", "review", "testing", "done", "rejected"}
  const PhaseLiterals: set<string> := {"planning", "development", "review", "release", "complete"}
  const AgentStateLiterals: set<string> := {"idle", "working", "done", "error"}

  function TypeName(t: TicketType): string {
    match t
    case Feature => "feature"
    case Bug => "bug"
    case Chore => "chore"
  }

  function StatusName(s: TicketStatus): string {
    match s
    case Draft => "draft"
    case Approved => "approved"
    case InProgress => "in_progress"
    case Review => "review"
    case Testing => "testing"
    case Done => "done"
    case Rejected => "rejected"
  }

  function PhaseName(p: Phase): string {
    match p
    case Planning => "planning"
    case Development => "development"
    case Review => "review"
    case Release => "release"
    case Complete => "complete"
  }

  function AgentStateName(a: AgentState): string {
    match a
    case Idle => "idle"
    case Working => "working"
    case Done => "done"
    case Error => "error"
  }

  /** Reads a ticket type literal; only the three declared literals are accepted. */
  function ParseType(x: string): (r: Option<TicketType>)
    ensures r.Some? <==> x in TypeLiterals
    ensures r.Some? ==> TypeName(r.value) == x
  {
    if x == "feature" then Some(Feature)
    else if x == "bug" then Some(Bug)
    else if x == "chore" then Some(Chore)
    else None
  }

  /** Reads a ticket status literal; only the seven declared literals are accepted. */
  function ParseStatus(x: string): (r: Option<TicketStatus>)
    ensures r.Some? <==> x in StatusLiterals
    ensures r.Some? ==> StatusName(r.value) == x
  {
    if x == "draft" then Some(Draft)
    else if x == "approved" then Some(Approved)
    else if x == "in_progress" then Some(InProgress)
    else if x == "review" then Some(TicketStatus.Review)
    else if x == "testing" then Some(Testing)
    else if x == "done" then Some(TicketStatus.Done)
    else if x == "rejected" then Some(Rejected)
    else None
  }

  /** Reads a project phase literal; only the five declared literals are accepted. */
  function ParsePhase(x: string): (r: Option<Phase>)
    ensures r.Some? <==> x in PhaseLiterals
    ensures r.Some? ==> PhaseName(r.value) == x
  {
    if x == "planning" then Some(Planning)
    else if x == "development" then Some(Development)
    else if x == "review" then Some(Phase.Review)
    else if x == "release" then Some(Release)
    else if x == "complete" then Some(Complete)
    else None
  }

  /** Reads an agent state literal; only the four declared literals are accepted. */
  function ParseAgentState(x: string): (r: Option<AgentState>)
    ensures r.Some? <==> x in AgentStateLiterals
    ensures r.Some? ==> AgentStateName(r.value) == x
  {
    if x == "idle" then Some(Idle)
    else if x == "working" then Some(Working)
    else if x == "done" then Some(AgentState.Done)
    else if x == "error" then Some(Error)
    else None
  }

  /** Each enumeration is in one-to-one correspondence with its literal set:
      every value prints as a declared literal and reads back as itself. */
  lemma LiteralsRoundTrip(t: TicketType, s: TicketStatus, p: Phase, a: AgentState)
    ensures TypeName(t) in TypeLiterals && ParseType(TypeName(t)) == Some(t)
    ensures StatusName(s) in StatusLiterals && ParseStatus(StatusName(s)) == Some(s)
    ensures PhaseName(p) in PhaseLiterals && ParsePhase(PhaseName(p)) == Some(p)
    ensures AgentStateName(a) in AgentStateLiterals && ParseAgentState(AgentStateName(a)) == Some(a)
    ensures |TypeLiterals| == 3 && |StatusLiterals| == 7
    ensures |PhaseLiterals| == 5 && |AgentStateLiterals| == 4
  {
    match t
    case Feature => case Bug => case Chore =>
    match s
    case Draft => case Approved => case InProgress => case Review =>
    case Testing => case Done => case Rejected =>
    match p
    case Planning => case Development => case Review => case Release => case Complete =>
  }

  // ---------------------------------------------------------------------
  // Records
  // ---------------------------------------------------------------------

  datatype Ticket = Ticket(
    id: string,
    title: string,
    description: string,
    kind: TicketType,
    status: TicketStatus,
    assignedTo: Option<string>,
    branch: Option<string>,
    dependencies: seq<string>,
    filesChanged: seq<string>,
    createdAt: string,
    updatedAt: string)

  /** A worker slot. `config` is not declared on the record, but the product
      owner stage reads `agents["product_owner"]["config"]`; None stands for a
      missing key. */
  datatype AgentStatus = AgentStatus(
    agentId: string,
    role: string,
    state: AgentState,
    currentTicket: Option<string>,
    llm: string,
    tmuxPane: string,
    config: Option<map<string, string>>)

  datatype ConflictInfo = ConflictInfo(branch: string, files: seq<string>, timestamp: string)

  /** One entry of the message log: `{"role": ..., "content": ...}`. */
  datatype Message = Message(role: string, content: string)

  /** The project record. The two fields that carry the append reducer always
      hold a list (an accumulating channel starts empty); every other field is
      a plain key that may be missing, written None. */
  datatype ScrumState = ScrumState(
    projectName: Option<string>,
    projectPath: Option<string>,
    phase: Option<Phase>,
    requirements: Option<string>,
    technicalSpec: Option<string>,
    planApproved: Option<bool>,
    tickets: seq<Ticket>,
    activeTickets: Option<map<string, Ticket>>,
    completedTickets: seq<Ticket>,
    agents: Option<map<string, AgentStatus>>,
    branches: Option<seq<string>>,
    pendingMerges: Option<seq<string>>,
    conflicts: Option<seq<ConflictInfo>>,
    sprintNumber: Option<int>,
    messages: Option<seq<Message>>)

  /** A partial update returned by a stage: None means the key is absent. */
  datatype Delta = Delta(
    projectName: Option<string>,
    projectPath: Option<string>,
    phase: Option<Phase>,
    requirements: Option<string>,
    technicalSpec: Option<string>,
    planApproved: Option<bool>,
    tickets: Option<seq<Ticket>>,
    activeTickets: Option<map<string, Ticket>>,
    completedTickets: Option<seq<Ticket>>,
    agents: Option<map<string, AgentStatus>>,
    branches: Option<seq<string>>,
    pendingMerges: Option<seq<string>>,
    conflicts: Option<seq<ConflictInfo>>,
    sprintNumber: Option<int>,
    messages: Option<seq<Message>>)

  /** The empty delta `{}`. */
  const NoChange: Delta :=
    Delta(None, None, None, None, None, None, None, None, None, None, None, None, None, None, None)

  // ---------------------------------------------------------------------
  // Reducers and merge
  // ---------------------------------------------------------------------

  /** The `add_tickets` reducer: plain list concatenation, no deduplication. */
  function AddTickets(existing: seq<Ticket>, added: seq<Ticket>): (r: seq<Ticket>)
    ensures |r| == |existing| + |added|
    ensures r[..|existing|] == existing && r[|existing|..] == added
  {
    existing + added
  }

  /** `add_tickets` is a monoid operation: [] is its identity and it is associative. */
  lemma AddTicketsMonoid(a: seq<Ticket>, b: seq<Ticket>, c: seq<Ticket>)
    ensures AddTickets(a, []) == a && AddTickets([], a) == a
    ensures AddTickets(AddTickets(a, b), c) == AddTickets(a, AddTickets(b, c))
  {
    assert a + [] == a;
    assert [] + a == a;
    assert (a + b) + c == a + (b + c);
  }

  /** A key without a reducer: the delta's value, when present, replaces the base value. */
  function Overwrite<T>(base: Option<T>, update: Option<T>): Option<T> {
    if update.Some? then update else base
  }

  /** The state after applying one delta: the append reducer for `tickets` and
      `completed_tickets`, wholesale replacement for every other key. */
  function Merge(base: ScrumState, d: Delta): ScrumState {
    ScrumState(
      Overwrite(base.projectName, d.projectName),
      Overwrite(base.projectPath, d.projectPath),
      Overwrite(base.phase, d.phase),
      Overwrite(base.requirements, d.requirements),
      Overwrite(base.technicalSpec, d.technicalSpec),
      Overwrite(base.planApproved, d.planApproved),
      AddTickets(base.tickets, d.tickets.GetOr([])),
      Overwrite(base.activeTickets, d.activeTickets),
      AddTickets(base.completedTickets, d.completedTickets.GetOr([])),
      Overwrite(base.agents, d.agents),
      Overwrite(base.branches, d.branches),
      Overwrite(base.pendingMerges, d.pendingMerges),
      Overwrite(base.conflicts, d.conflicts),
      Overwrite(base.sprintNumber, d.sprintNumber),
      Overwrite(base.messages, d.messages))
  }

  /** The empty delta leaves every state unchanged. */
  lemma MergeNoChange(s: ScrumState)
    ensures Merge(s, NoChange) == s
  {
    assert s.tickets + [] == s.tickets;
    assert s.completedTickets + [] == s.completedTickets;
  }

  /** Only `tickets` and `completed_tickets` accumulate: merging the same delta
      twice grows those two lists a second time, while every other key
      (including `active_tickets`, `agents` and `messages`) ends as after one merge. */
  lemma OnlyTicketListsAccumulate(s: ScrumState, d: Delta)
    ensures Merge(Merge(s, d), d) ==
            Merge(s, d).(tickets := Merge(s, d).tickets + d.tickets.GetOr([]),
                         completedTickets := Merge(s, d).completedTickets + d.completedTickets.GetOr([]))
    ensures d.tickets.Some? && d.tickets.value != [] ==> Merge(Merge(s, d), d) != Merge(s, d)
  {
    var once := Merge(s, d);
    if d.tickets.Some? && d.tickets.value != [] {
      assert |Merge(once, d).tickets| > |once.tickets|;
    }
  }

  /** Two deltas combined into one, as the merge would apply them in sequence. */
  function Combine(d1: Delta, d2: Delta): Delta {
    Delta(
      Overwrite(d1.projectName, d2.projectName),
      Overwrite(d1.projectPath, d2.projectPath),
      Overwrite(d1.phase, d2.phase),
      Overwrite(d1.requirements, d2.requirements),
      Overwrite(d1.technicalSpec, d2.technicalSpec),
      Overwrite(d1.planApproved, d2.planApproved),
      Accumulate(d1.tickets, d2.tickets),
      Overwrite(d1.activeTickets, d2.activeTickets),
      Accumulate(d1.completedTickets, d2.completedTickets),
      Overwrite(d1.agents, d2.agents),
      Overwrite(d1.branches, d2.branches),
      Overwrite(d1.pendingMerges, d2.pendingMerges),
      Overwrite(d1.conflicts, d2.conflicts),
      Overwrite(d1.sprintNumber, d2.sprintNumber),
      Overwrite(d1.messages, d2.messages))
  }

  function Accumulate(a: Option<seq<Ticket>>, b: Option<seq<Ticket>>): Option<seq<Ticket>> {
    if a.None? then b else if b.None? then a else Some(AddTickets(a.value, b.value))
  }

  /** Applying two deltas one after the other is applying their combination:
      last writer wins on plain keys, concatenation on the accumulating lists. */
  lemma MergeCompose(s: ScrumState, d1: Delta, d2: Delta)
    ensures Merge(Merge(s, d1), d2) == Merge(s, Combine(d1, d2))
  {
    AccumulateGetOr(d1.tickets, d2.tickets);
    AccumulateGetOr(d1.completedTickets, d2.completedTickets);
    AddTicketsMonoid(s.tickets, d1.tickets.GetOr([]), d2.tickets.GetOr([]));
    AddTicketsMonoid(s.completedTickets, d1.completedTickets.GetOr([]), d2.completedTickets.GetOr([]));
  }

  lemma AccumulateGetOr(a: Option<seq<Ticket>>, b: Option<seq<Ticket>>)
    ensures Accumulate(a, b).GetOr([]) == a.GetOr([]) + b.GetOr([])
  {
    assert a.GetOr([]) + [] == a.GetOr([]);
    assert [] + b.GetOr([]) == b.GetOr([]);
  }

  /** Combining deltas is associative with the empty delta as identity, so the
      deltas of one join can be folded in any grouping. */
  lemma CombineMonoid(d1: Delta, d2: Delta, d3: Delta)
    ensures Combine(NoChange, d1) == d1 && Combine(d1, NoChange) == d1
    ensures Combine(Combine(d1, d2), d3) == Combine(d1, Combine(d2, d3))
  {
    if d1.tickets.Some? && d2.tickets.Some? && d3.tickets.Some? {
      AddTicketsMonoid(d1.tickets.value, d2.tickets.value, d3.tickets.value);
    }
    if d1.completedTickets.Some? && d2.completedTickets.Some? && d3.completedTickets.Some? {
      AddTicketsMonoid(d1.completedTickets.value, d2.completedTickets.value, d3.completedTickets.value);
    }
  }
}
