/** The planning stages: the product owner's requirement analysis, the
    architect's tickets and the approval of the plan. The language-model call,
    the uuid values and the clock readings are inputs. */
module Planning {
  import opened Wrappers
  import opened State

  /** What the language-model call does: it replies with text, or raises
      (inside the stage's `try`, together with building the client). */
  datatype LlmReply = Replied(content: string) | Raised(error: string)

  /** The language model, given the provider configuration, the system prompt
      and the user prompt. */
  type Llm = (map<string, string>, string, string) -> LlmReply

  const DefaultProductOwnerPrompt: string :=
    "You are an expert Product Owner. Analyze requirements and break them down."

  /** `state.get("agents", {}).get("product_owner", {}).get("config", {})`:
      each missing level defaults to an empty dictionary. */
  function ProductOwnerConfig(s: ScrumState): (config: map<string, string>)
    ensures s.agents.None? || "product_owner" !in s.agents.value ==> config == map[]
    ensures s.agents.Some? && "product_owner" in s.agents.value ==>
              config == s.agents.value["product_owner"].config.GetOr(map[])
  {
    var agents := s.agents.GetOr(map[]);
    if "product_owner" in agents then agents["product_owner"].config.GetOr(map[]) else map[]
  }

  /** The system prompt: the configured role description, or the default one. */
  function SystemPrompt(config: map<string, string>): (prompt: string)
    ensures "role_description" !in config ==> prompt == DefaultProductOwnerPrompt
    ensures "role_description" in config ==> prompt == config["role_description"]
  {
    if "role_description" in config then config["role_description"] else DefaultProductOwnerPrompt
  }

  /** The user prompt, with a missing `requirements` read as "". */
  function RequirementsPrompt(s: ScrumState): string {
    "Analyze these requirements: " + s.requirements.GetOr("")
  }

  /** The text logged when the model call raises. */
  function FallbackContent(error: string): string {
    "Analyzed requirements (Mock due to error: " + error + ")"
  }

  /** `product_owner_node`: a delta with only `messages`, holding exactly one
      entry from the product owner whose content is the model's reply, or the
      fallback text when the call raised; the stage itself never fails. */
  function ProductOwnerNode(s: ScrumState, llm: Llm): (d: Delta)
    ensures d.(messages := None) == NoChange
    ensures d.messages.Some? && |d.messages.value| == 1
    ensures d.messages.value[0].role == "product_owner"
    ensures var reply := llm(ProductOwnerConfig(s), SystemPrompt(ProductOwnerConfig(s)), RequirementsPrompt(s));
            d.messages.value[0].content ==
              match reply
              case Replied(text) => text
              case Raised(e) => FallbackContent(e)
  {
    var config := ProductOwnerConfig(s);
    var reply := llm(config, SystemPrompt(config), RequirementsPrompt(s));
    var content := match reply
      case Replied(text) => text
      case Raised(e) => FallbackContent(e);
    NoChange.(messages := Some([Message("product_owner", content)]))
  }

  /** `messages` carries no reducer, so the product owner's entry replaces the
      whole log rather than being appended to it. */
  lemma ProductOwnerReplacesLog(s: ScrumState, llm: Llm)
    ensures var after := Merge(s, ProductOwnerNode(s, llm));
            after.messages == ProductOwnerNode(s, llm).messages &&
            |after.messages.value| == 1 &&
            after.(messages := s.messages) == s
  {
    MergeNoChange(s);
  }

  /** `str(uuid.uuid4())[:8]`: at most the first eight characters. */
  function ShortId(uuid: string): (id: string)
    ensures |id| == if |uuid| < 8 then |uuid| else 8
    ensures id == uuid[..|id|]
  {
    if |uuid| < 8 then uuid else uuid[..8]
  }

  /** A ticket as the architect creates it. */
  function NewTicket(id: string, title: string, description: string, kind: TicketType,
                     createdAt: string, updatedAt: string): Ticket {
    Ticket(id, title, description, kind, Draft, None, None, [], [], createdAt, updatedAt)
  }

  /** The fixed architecture text. */
  const TechnicalSpec: string := "Microservices architecture..."

  /** `architect_node`: exactly two fresh draft tickets, a chore then a
      feature, unassigned, without branch, dependencies or changed files; the
      plan is marked not approved and the technical spec set to a fixed text.
      `first` and `second` are the two uuid strings, and the four time stamps
      the four clock readings in call order. */
  function ArchitectNode(first: string, second: string,
                         created1: string, updated1: string,
                         created2: string, updated2: string): (d: Delta)
    ensures d.tickets.Some? && |d.tickets.value| == 2
    ensures d.tickets.value[0].kind == Chore && d.tickets.value[1].kind == Feature
    ensures d.tickets.value[0].title == "Setup Project Structure"
    ensures d.tickets.value[1].title == "Implement Core API"
    ensures d.tickets.value[0].id == ShortId(first) && d.tickets.value[1].id == ShortId(second)
    ensures forall t :: t in d.tickets.value ==>
              t.status == Draft && t.assignedTo.None? && t.branch.None? &&
              t.dependencies == [] && t.filesChanged == []
    ensures d.technicalSpec == Some(TechnicalSpec) && d.planApproved == Some(false)
    ensures d.(tickets := None, technicalSpec := None, planApproved := None) == NoChange
  {
    var tickets := [
      NewTicket(ShortId(first), "Setup Project Structure",
                "Initialize repository and basic structure", Chore, created1, updated1),
      NewTicket(ShortId(second), "Implement Core API",
                "Create basic FastAPI endpoints", Feature, created2, updated2)
    ];
    NoChange.(tickets := Some(tickets), technicalSpec := Some(TechnicalSpec), planApproved := Some(false))
  }

  /** Because of the append reducer, every pass through the architect adds
      two tickets after the existing ones; earlier tickets are kept. */
  lemma ArchitectGrowsTickets(s: ScrumState, first: string, second: string,
                              c1: string, u1: string, c2: string, u2: string)
    ensures var after := Merge(s, ArchitectNode(first, second, c1, u1, c2, u2));
            |after.tickets| == |s.tickets| + 2 &&
            after.tickets[..|s.tickets|] == s.tickets &&
            after.planApproved == Some(false)
  {
  }

  /** `user_approval_node`: sets only `plan_approved` to True. */
  function UserApprovalNode(s: ScrumState): (d: Delta)
    ensures forall base :: Merge(base, d) == base.(planApproved := Some(true))
  {
    var d := NoChange.(planApproved := Some(true));
    assert forall base :: Merge(base, d) == base.(planApproved := Some(true)) by {
      forall base ensures Merge(base, d) == base.(planApproved := Some(true)) {
        MergeNoChange(base);
      }
    }
    d
  }
}
