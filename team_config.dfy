/** The dashboard's team composition panel, without its rendering: the
    list of agent cards, the toggle that can never switch off a required
    agent, the custom agent added with a time-stamped id, the edit dialog's
    field updates, and the start event listing the enabled agents. */
module TeamConfig {
  import opened Wrappers

  /** A temperature, kept in tenths: the initial values are 0.2, 0.3, 0.5
      and 0.7 and the edit slider moves in steps of 0.1. It is only passed
      through. */
  datatype Temperature = Tenths(n: int)

  datatype AgentCard = AgentCard(
    id: string,
    name: string,
    enabled: bool,
    required: bool,
    provider: string,
    model: string,
    temperature: Temperature,
    roleDescription: string)

  const Sonnet: string := "claude-3-5-sonnet-20240620"

  /** The seven cards the panel starts with. */
  const InitialAgents: seq<AgentCard> := [
    AgentCard("product_owner", "Product Owner", true, true, "anthropic", Sonnet, Tenths(7),
              "Analyze requirements and create user stories."),
    AgentCard("architect", "Solutions Architect", true, true, "anthropic", Sonnet, Tenths(7),
              "Design technical architecture and create tickets."),
    AgentCard("ui_developer", "UI Developer", true, false, "anthropic", Sonnet, Tenths(7),
              "Implement frontend components and styles."),
    AgentCard("backend_developer", "Backend Developer", true, false, "anthropic", Sonnet, Tenths(7),
              "Implement API endpoints and database logic."),
    AgentCard("tester", "QA Tester", true, false, "anthropic", Sonnet, Tenths(5),
              "Verify implemented features and report bugs."),
    AgentCard("git_agent", "Git Manager", true, true, "openai", "gpt-4o", Tenths(2),
              "Manage branches, worktrees and commits."),
    AgentCard("reviewer", "Code Reviewer", true, false, "anthropic", Sonnet, Tenths(3),
              "Review code for best practices and security.")
  ]

  /** The panel's invariant: a required agent is enabled. */
  predicate RequiredEnabled(agents: seq<AgentCard>) {
    forall i :: 0 <= i < |agents| ==> agents[i].required ==> agents[i].enabled
  }

  /** Some card with this id is required. */
  predicate HasRequired(agents: seq<AgentCard>, id: string) {
    exists i :: 0 <= i < |agents| && agents[i].id == id && agents[i].required
  }

  /** Well formed: required agents are enabled, and the product owner, the
      architect and the git manager are among the required agents. */
  predicate WellFormed(agents: seq<AgentCard>) {
    RequiredEnabled(agents) &&
    HasRequired(agents, "product_owner") && HasRequired(agents, "architect") && HasRequired(agents, "git_agent")
  }

  lemma InitialValid()
    ensures WellFormed(InitialAgents)
  {
    assert InitialAgents[0].id == "product_owner" && InitialAgents[0].required;
    assert InitialAgents[1].id == "architect" && InitialAgents[1].required;
    assert InitialAgents[5].id == "git_agent" && InitialAgents[5].required;
  }

  // ---------------------------------------------------------------------
  // toggleAgent
  // ---------------------------------------------------------------------

  /** The card after a toggle of `id`: flipped when it has that id and is
      not required. */
  function ToggleCard(a: AgentCard, id: string): AgentCard {
    if a.id == id && !a.required then a.(enabled := !a.enabled) else a
  }

  /** `this.agents.map(...)` in `toggleAgent`. */
  function Toggled(agents: seq<AgentCard>, id: string): (r: seq<AgentCard>)
    ensures |r| == |agents|
    ensures forall i :: 0 <= i < |r| ==> r[i] == ToggleCard(agents[i], id)
  {
    seq(|agents|, i requires 0 <= i < |agents| => ToggleCard(agents[i], id))
  }

  /** Only `enabled` can change, only on cards with that id that are not
      required, and there it flips; a required card is never touched. */
  lemma ToggleEffect(agents: seq<AgentCard>, id: string, i: int)
    requires 0 <= i < |agents|
    ensures var r := Toggled(agents, id);
            r[i].(enabled := agents[i].enabled) == agents[i] &&
            (r[i].enabled != agents[i].enabled <==> agents[i].id == id && !agents[i].required)
  {
  }

  /** An id no card has leaves the list as it was. */
  lemma ToggleUnknown(agents: seq<AgentCard>, id: string)
    requires forall i :: 0 <= i < |agents| ==> agents[i].id != id
    ensures Toggled(agents, id) == agents
  {
  }

  /** Toggling the same id twice restores the list. */
  lemma ToggleTwice(agents: seq<AgentCard>, id: string)
    ensures Toggled(Toggled(agents, id), id) == agents
  {
    var r := Toggled(Toggled(agents, id), id);
    assert forall i :: 0 <= i < |agents| ==> r[i] == agents[i];
  }

  /** Toggling keeps the panel well formed. */
  lemma ToggleKeepsValid(agents: seq<AgentCard>, id: string)
    requires WellFormed(agents)
    ensures WellFormed(Toggled(agents, id))
  {
    var r := Toggled(agents, id);
    forall name | HasRequired(agents, name) ensures HasRequired(r, name) {
      var i :| 0 <= i < |agents| && agents[i].id == name && agents[i].required;
      assert r[i] == agents[i];
    }
  }

  // ---------------------------------------------------------------------
  // addNewAgent and the edit dialog
  // ---------------------------------------------------------------------

  function DigitChar(d: int): (c: char)
    requires 0 <= d < 10
    ensures '0' <= c <= '9'
  {
    "0123456789"[d]
  }

  /** A non-negative integer in decimal, as a template literal prints it. */
  function Decimal(n: nat): (s: string)
    ensures |s| > 0
    ensures forall i :: 0 <= i < |s| ==> '0' <= s[i] <= '9'
    decreases n
  {
    if n < 10 then [DigitChar(n)] else Decimal(n / 10) + [DigitChar(n % 10)]
  }

  lemma DigitCharInjective(a: int, b: int)
    requires 0 <= a < 10 && 0 <= b < 10 && DigitChar(a) == DigitChar(b)
    ensures a == b
  {
  }

  /** The last digit is the remainder by ten, and what precedes it prints
      the quotient; one digit exactly below ten. */
  lemma DecimalLast(n: nat)
    ensures var s := Decimal(n);
            s[|s| - 1] == DigitChar(n % 10) &&
            (|s| == 1 <==> n < 10) &&
            (n >= 10 ==> s[..|s| - 1] == Decimal(n / 10))
  {
    if n >= 10 {
      var q := Decimal(n / 10);
      assert (q + [DigitChar(n % 10)])[..|q|] == q;
    }
  }

  /** Different numbers print differently. */
  lemma {:induction false} DecimalInjective(a: nat, b: nat)
    requires Decimal(a) == Decimal(b)
    ensures a == b
    decreases a
  {
    DecimalLast(a);
    DecimalLast(b);
    DigitCharInjective(a % 10, b % 10);
    if a >= 10 {
      DecimalInjective(a / 10, b / 10);
    }
  }

  const CustomPrefix: string := "custom_agent_"

  /** `` `custom_agent_${Date.now()}` ``, with the clock reading in
      milliseconds as input. */
  function CustomId(now: nat): (id: string)
    ensures |id| > |CustomPrefix| && id[..|CustomPrefix|] == CustomPrefix
    ensures forall i :: |CustomPrefix| <= i < |id| ==> '0' <= id[i] <= '9'
  {
    CustomPrefix + Decimal(now)
  }

  /** Custom agents added at different instants get different ids. */
  lemma CustomIdInjective(a: nat, b: nat)
    requires CustomId(a) == CustomId(b)
    ensures a == b
  {
    assert Decimal(a) == CustomId(a)[|CustomPrefix|..];
    assert Decimal(b) == CustomId(b)[|CustomPrefix|..];
    DecimalInjective(a, b);
  }

  /** The card `addNewAgent` appends. */
  function NewCard(id: string): AgentCard {
    AgentCard(id, "New Agent", true, false, "anthropic", Sonnet, Tenths(7), "describe role...")
  }

  /** A change the edit dialog makes to the card being edited. */
  datatype CardEdit =
    | Rename(name: string)
    | Describe(roleDescription: string)
    | SetProvider(provider: string)
    | SetModel(model: string)
    | SetTemperature(temperature: Temperature)

  function EditCard(a: AgentCard, e: CardEdit): (r: AgentCard)
    ensures r.id == a.id && r.enabled == a.enabled && r.required == a.required
  {
    match e
    case Rename(n) => a.(name := n)
    case Describe(d) => a.(roleDescription := d)
    case SetProvider(p) => a.(provider := p)
    case SetModel(m) => a.(model := m)
    case SetTemperature(t) => a.(temperature := t)
  }

  /** `this.agents.find(a => a.id === id)`: the index of the first card with
      that id. */
  function FindIndex(agents: seq<AgentCard>, id: string): (k: Option<nat>)
    ensures k.Some? ==> k.value < |agents| && agents[k.value].id == id &&
                        forall i :: 0 <= i < k.value ==> agents[i].id != id
    ensures k.None? ==> forall i :: 0 <= i < |agents| ==> agents[i].id != id
  {
    if agents == [] then None
    else if agents[0].id == id then Some(0)
    else match FindIndex(agents[1..], id)
      case None => None
      case Some(j) => Some(j + 1)
  }

  /** The list after an edit of the dialog showing `editing`: the dialog is
      closed for no id or the empty id, and shows nothing for an unknown id. */
  function Edited(agents: seq<AgentCard>, editing: Option<string>, e: CardEdit): seq<AgentCard> {
    if editing.None? || editing.value == "" then agents
    else match FindIndex(agents, editing.value)
      case None => agents
      case Some(k) => agents[k := EditCard(agents[k], e)]
  }

  /** An edit keeps the list's length, every id and every enabled and
      required flag, so it keeps the panel well formed and never changes
      which agents are launched. */
  lemma EditKeepsFlags(agents: seq<AgentCard>, editing: Option<string>, e: CardEdit)
    ensures var r := Edited(agents, editing, e);
            |r| == |agents| &&
            forall i :: 0 <= i < |r| ==>
              r[i].id == agents[i].id && r[i].enabled == agents[i].enabled && r[i].required == agents[i].required
  {
  }

  lemma EditKeepsValid(agents: seq<AgentCard>, editing: Option<string>, e: CardEdit)
    requires WellFormed(agents)
    ensures WellFormed(Edited(agents, editing, e))
  {
    EditKeepsFlags(agents, editing, e);
    var r := Edited(agents, editing, e);
    forall name | HasRequired(agents, name) ensures HasRequired(r, name) {
      var i :| 0 <= i < |agents| && agents[i].id == name && agents[i].required;
      assert r[i].id == name && r[i].required;
    }
  }

  // ---------------------------------------------------------------------
  // handleStart
  // ---------------------------------------------------------------------

  datatype LaunchConfig = LaunchConfig(provider: string, model: string, temperature: Temperature, roleDescription: string)
  datatype LaunchEntry = LaunchEntry(id: string, name: string, config: LaunchConfig)

  /** The detail of the `start` event. */
  datatype StartDetail = StartDetail(concept: string, agents: seq<LaunchEntry>)

  /** Some entry of the list has this id. */
  predicate Launches(entries: seq<LaunchEntry>, id: string) {
    exists e :: e in entries && e.id == id
  }

  function Entry(a: AgentCard): LaunchEntry {
    LaunchEntry(a.id, a.name, LaunchConfig(a.provider, a.model, a.temperature, a.roleDescription))
  }

  /** `this.agents.filter(a => a.enabled).map(...)`. */
  function Launched(agents: seq<AgentCard>): (r: seq<LaunchEntry>)
    ensures |r| <= |agents|
    ensures forall e :: e in r <==> exists i :: 0 <= i < |agents| && agents[i].enabled && e == Entry(agents[i])
  {
    if agents == [] then []
    else
      var rest := Launched(agents[1..]);
      assert forall i :: 1 <= i < |agents| ==> agents[i] == agents[1..][i - 1];
      assert forall e :: e in rest <==> exists i :: 1 <= i < |agents| && agents[i].enabled && e == Entry(agents[i]);
      (if agents[0].enabled then [Entry(agents[0])] else []) + rest
  }

  /** The launch list keeps the cards' order: launching a concatenation
      launches each part in turn. */
  lemma {:induction false} LaunchedConcat(a: seq<AgentCard>, b: seq<AgentCard>)
    ensures Launched(a + b) == Launched(a) + Launched(b)
  {
    if a != [] {
      var head := if a[0].enabled then [Entry(a[0])] else [];
      assert (a + b)[0] == a[0];
      assert (a + b)[1..] == a[1..] + b;
      LaunchedConcat(a[1..], b);
      assert Launched(a + b) == head + (Launched(a[1..]) + Launched(b));
      assert Launched(a) == head + Launched(a[1..]);
    } else {
      assert a + b == b;
    }
  }

  /** A required agent of a well-formed panel is always launched. */
  lemma RequiredLaunched(agents: seq<AgentCard>, id: string)
    requires RequiredEnabled(agents) && HasRequired(agents, id)
    ensures Launches(Launched(agents), id)
  {
    var i :| 0 <= i < |agents| && agents[i].id == id && agents[i].required;
    assert Entry(agents[i]) in Launched(agents);
  }

  /** The product owner, the architect and the git manager are launched
      from every well-formed panel. */
  lemma CoreLaunched(agents: seq<AgentCard>)
    requires WellFormed(agents)
    ensures Launches(Launched(agents), "product_owner")
    ensures Launches(Launched(agents), "architect")
    ensures Launches(Launched(agents), "git_agent")
  {
    RequiredLaunched(agents, "product_owner");
    RequiredLaunched(agents, "architect");
    RequiredLaunched(agents, "git_agent");
  }

  /** Adding a custom agent adds exactly its entry at the end of the
      launch list. */
  lemma AddedAgentLaunched(agents: seq<AgentCard>, now: nat)
    ensures Launched(agents + [NewCard(CustomId(now))]) == Launched(agents) + [Entry(NewCard(CustomId(now)))]
  {
    LaunchedConcat(agents, [NewCard(CustomId(now))]);
  }

  // ---------------------------------------------------------------------
  // The panel
  // ---------------------------------------------------------------------

  class TeamConfig {
    var concept: string
    var agents: seq<AgentCard>
    var editingAgentId: Option<string>
    var newAgentMode: bool

    predicate Valid()
      reads this
    {
      WellFormed(agents)
    }

    constructor ()
      ensures concept == "" && agents == InitialAgents && editingAgentId.None? && !newAgentMode
      ensures Valid() && !AvailableToLaunch()
    {
      concept := "";
      agents := InitialAgents;
      editingAgentId := None;
      newAgentMode := false;
      InitialValid();
    }

    /** The concept text area's input binding. */
    method SetConcept(text: string)
      modifies this
      ensures concept == text && agents == old(agents) && editingAgentId == old(editingAgentId)
      ensures newAgentMode == old(newAgentMode)
      ensures AvailableToLaunch() <==> |text| > 5
    {
      concept := text;
    }

    method ToggleAgent(agentId: string)
      requires Valid()
      modifies this
      ensures agents == Toggled(old(agents), agentId) && Valid()
      ensures concept == old(concept) && editingAgentId == old(editingAgentId)
      ensures newAgentMode == old(newAgentMode)
    {
      ToggleKeepsValid(agents, agentId);
      agents := Toggled(agents, agentId);
    }

    method EditAgent(agentId: string)
      modifies this
      ensures editingAgentId == Some(agentId)
      ensures agents == old(agents) && concept == old(concept) && newAgentMode == old(newAgentMode)
    {
      editingAgentId := Some(agentId);
    }

    /** `saveAgent`, and the dialog's close button: the dialog closes. */
    method SaveAgent()
      modifies this
      ensures editingAgentId.None?
      ensures agents == old(agents) && concept == old(concept) && newAgentMode == old(newAgentMode)
    {
      editingAgentId := None;
    }

    /** A field change in the edit dialog, applied to the edited card. */
    method ApplyEdit(e: CardEdit)
      requires Valid()
      modifies this
      ensures agents == Edited(old(agents), old(editingAgentId), e) && Valid()
      ensures concept == old(concept) && editingAgentId == old(editingAgentId)
      ensures newAgentMode == old(newAgentMode)
    {
      EditKeepsValid(agents, editingAgentId, e);
      if editingAgentId.Some? && editingAgentId.value != "" {
        var k := FindIndex(agents, editingAgentId.value);
        if k.Some? {
          agents := agents[k.value := EditCard(agents[k.value], e)];
        }
      }
    }

    /** `addNewAgent`, with the clock reading in milliseconds as input: one
        enabled, not required card at the end, and the dialog opened on it. */
    method AddNewAgent(now: nat)
      requires Valid()
      modifies this
      ensures agents == old(agents) + [NewCard(CustomId(now))] && Valid()
      ensures editingAgentId == Some(CustomId(now)) && concept == old(concept)
      ensures newAgentMode == old(newAgentMode)
    {
      var newId := CustomId(now);
      var old_agents := agents;
      agents := agents + [NewCard(newId)];
      forall name | HasRequired(old_agents, name) ensures HasRequired(agents, name) {
        var i :| 0 <= i < |old_agents| && old_agents[i].id == name && old_agents[i].required;
        assert agents[i] == old_agents[i];
      }
      EditAgent(newId);
    }

    /** `handleStart`: the detail of the `start` event it dispatches. */
    function StartEvent(): (d: StartDetail)
      reads this
      ensures d.concept == concept && d.agents == Launched(agents)
      ensures Valid() ==> Launches(d.agents, "product_owner") && Launches(d.agents, "architect") &&
                          Launches(d.agents, "git_agent")
    {
      var d := StartDetail(concept, Launched(agents));
      if Valid() then CoreLaunched(agents); d else d
    }

    /** `availableToLaunch`: the concept is longer than five characters. */
    function AvailableToLaunch(): bool
      reads this
    {
      |concept| > 5
    }
  }

  /** When every card is enabled, every card is launched, in order. */
  lemma {:induction false} AllEnabledLaunched(agents: seq<AgentCard>)
    requires forall i :: 0 <= i < |agents| ==> agents[i].enabled
    ensures |Launched(agents)| == |agents|
    ensures forall i :: 0 <= i < |agents| ==> Launched(agents)[i] == Entry(agents[i])
  {
    if agents != [] {
      AllEnabledLaunched(agents[1..]);
    }
  }

  /** A fresh panel launches all seven agents in their order. */
  lemma InitialLaunch()
    ensures |Launched(InitialAgents)| == 7
    ensures forall i :: 0 <= i < 7 ==> Launched(InitialAgents)[i] == Entry(InitialAgents[i])
  {
    AllEnabledLaunched(InitialAgents);
  }
}
