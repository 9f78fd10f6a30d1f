// The AI agent records (src/ai/aiSystem.ts). The store's 'agents' collection is a map from agent
// id to record, and every read returns a copy; the `activeAgents` cache is a second map that each
// save also writes. The ids that the source draws from uuidv4 come from one counter, and
// `new Date()` is the `now` parameter. Importance and personality scalars are reals.
module Agents {
  import opened Wrappers
  import opened Seqs
  import opened Text
  import opened Sorting
  import opened KernelTypes
  import opened Processes

  datatype AiError = AgentNotFound(agent: AgentId) | GoalNotFound(goal: nat)

  /** The cap above which addMemory trims, and the number of memories it keeps. */
  const MemoryCap := 1000
  const MemoryKept := 800

  // ---------------------------------------------------------------------------
  // Skills
  // ---------------------------------------------------------------------------

  function BaseSkills(): seq<string> {
    ["conversation", "memory", "learning"]
  }

  function TypeSkills(t: AgentType): seq<string> {
    match t
    case Assistant => ["task-management", "information-retrieval", "scheduling"]
    case Worker => ["automation", "data-processing", "file-management"]
    case Moderator => ["content-moderation", "rule-enforcement", "user-management"]
    case Trader => ["market-analysis", "trading", "risk-assessment"]
    case Custom => []
  }

  /** getDefaultSkills: the three base skills, then the type's own. */
  function DefaultSkills(t: AgentType): (r: seq<string>)
    ensures |r| == if t == Custom then 3 else 6
    ensures r[..3] == BaseSkills() && r[3..] == TypeSkills(t)
  {
    BaseSkills() + TypeSkills(t)
  }

  /** No type's default list repeats a skill. */
  lemma DefaultSkillsDistinct(t: AgentType)
    ensures Distinct(DefaultSkills(t))
  {
  }

  /** addSkill's list: the skill appended unless it is already there. */
  function WithSkill(skills: seq<string>, skill: string): (r: seq<string>)
    ensures skill in r && forall s :: s in skills ==> s in r
    ensures forall s :: s in r ==> s in skills || s == skill
  {
    if skill in skills then skills else skills + [skill]
  }

  /** Adding a skill twice is adding it once, and a list without repeats keeps none. */
  lemma WithSkillIdempotent(skills: seq<string>, skill: string)
    ensures WithSkill(WithSkill(skills, skill), skill) == WithSkill(skills, skill)
    ensures Distinct(skills) ==> Distinct(WithSkill(skills, skill))
  {
    if skill !in skills {
      var r := skills + [skill];
      assert r[|skills|] == skill;
    }
  }

  // ---------------------------------------------------------------------------
  // Personality
  // ---------------------------------------------------------------------------

  /** A `Partial<AIPersonality>` argument: the fields that were given. */
  datatype PersonalityPatch = PersonalityPatch(
    creativity: Option<real>,
    formality: Option<real>,
    helpfulness: Option<real>,
    assertiveness: Option<real>,
    traits: Option<seq<string>>)

  /** `Math.max(0, Math.min(1, x))`. */
  function Clamp01(x: real): (r: real)
    ensures 0.0 <= r <= 1.0
    ensures 0.0 <= x <= 1.0 ==> r == x
    ensures x < 0.0 ==> r == 0.0
    ensures x > 1.0 ==> r == 1.0
  {
    if x < 0.0 then 0.0 else if x > 1.0 then 1.0 else x
  }

  /** createAgent's personality: each given field as it is, otherwise its default (`??`). */
  function InitialPersonality(patch: PersonalityPatch): Personality {
    Personality(patch.creativity.GetOr(0.7), patch.formality.GetOr(0.5), patch.helpfulness.GetOr(0.9),
                patch.assertiveness.GetOr(0.6), patch.traits.GetOr(["friendly", "helpful", "curious"]))
  }

  function ClampGiven(given: Option<real>, current: real): real {
    if given.Some? then Clamp01(given.value) else current
  }

  /** updatePersonality: the given scalars clamped to [0, 1], the given traits as they are. */
  function UpdatedPersonality(p: Personality, patch: PersonalityPatch): Personality {
    Personality(ClampGiven(patch.creativity, p.creativity), ClampGiven(patch.formality, p.formality),
                ClampGiven(patch.helpfulness, p.helpfulness), ClampGiven(patch.assertiveness, p.assertiveness),
                patch.traits.GetOr(p.traits))
  }

  predicate InUnitRange(p: Personality) {
    0.0 <= p.creativity <= 1.0 && 0.0 <= p.formality <= 1.0
    && 0.0 <= p.helpfulness <= 1.0 && 0.0 <= p.assertiveness <= 1.0
  }

  /**
   * An update leaves each given scalar in [0, 1] and each missing one as it was, and repeating it
   * changes nothing. A personality in range stays in range.
   */
  lemma UpdateClamps(p: Personality, patch: PersonalityPatch)
    ensures var q := UpdatedPersonality(p, patch);
      && (patch.creativity.Some? ==> 0.0 <= q.creativity <= 1.0)
      && (patch.creativity.None? ==> q.creativity == p.creativity)
      && (patch.formality.Some? ==> 0.0 <= q.formality <= 1.0)
      && (patch.formality.None? ==> q.formality == p.formality)
      && (patch.helpfulness.Some? ==> 0.0 <= q.helpfulness <= 1.0)
      && (patch.helpfulness.None? ==> q.helpfulness == p.helpfulness)
      && (patch.assertiveness.Some? ==> 0.0 <= q.assertiveness <= 1.0)
      && (patch.assertiveness.None? ==> q.assertiveness == p.assertiveness)
      && (patch.traits.Some? ==> q.traits == patch.traits.value)
      && (InUnitRange(p) ==> InUnitRange(q))
    ensures UpdatedPersonality(UpdatedPersonality(p, patch), patch) == UpdatedPersonality(p, patch)
  {
  }

  /** createAgent does not clamp: a creativity of 2 is stored as 2. */
  lemma CreationDoesNotClamp()
    ensures !InUnitRange(InitialPersonality(PersonalityPatch(Some(2.0), None, None, None, None)))
  {
  }

  // ---------------------------------------------------------------------------
  // Agents, memories and goals
  // ---------------------------------------------------------------------------

  /** createAgent's record: idle, no memories, no goals, the default skills of its type. */
  function NewAgent(id: AgentId, ownerId: string, name: string, t: AgentType, patch: PersonalityPatch, now: int): (a: Agent)
    ensures a.status == Idle && a.memory == [] && a.goals == [] && a.skills == DefaultSkills(t)
    ensures a.id == id && a.ownerId == ownerId && a.name == name && a.atype == t
  {
    Agent(id, name, t, ownerId, InitialPersonality(patch), [], [], DefaultSkills(t), Idle, now, now)
  }

  /** Memories ranked by importance, highest first: the comparator `b.importance - a.importance`. */
  function MoreImportant(): (Memory, Memory) -> bool {
    (a: Memory, b: Memory) => a.importance >= b.importance
  }

  lemma MoreImportantPreorder()
    ensures TotalPreorder(MoreImportant())
  {
  }

  /** addMemory's list: the memory appended, then, above the cap, the 800 most important kept. */
  function Remembered(memory: seq<Memory>, m: Memory): (r: seq<Memory>)
    ensures |r| <= MemoryCap
    ensures |memory| < MemoryCap ==> r == memory + [m]
    ensures |memory| >= MemoryCap ==> |r| == MemoryKept
  {
    var all := memory + [m];
    if |all| > MemoryCap then SortBy(all, MoreImportant())[..MemoryKept] else all
  }

  /**
   * Above the cap the kept memories come from the list, are ordered by importance, and none of
   * the dropped ones is more important than any of them. The new memory can be among the dropped.
   */
  lemma TrimKeepsMostImportant(memory: seq<Memory>, m: Memory)
    requires |memory| >= MemoryCap
    ensures var sorted := SortBy(memory + [m], MoreImportant());
      && Remembered(memory, m) == sorted[..MemoryKept]
      && multiset(sorted[..MemoryKept]) + multiset(sorted[MemoryKept..]) == multiset(memory + [m])
      && SortedBy(sorted[..MemoryKept], MoreImportant())
      && forall a, b :: a in sorted[..MemoryKept] && b in sorted[MemoryKept..] ==> a.importance >= b.importance
  {
    var all := memory + [m];
    var sorted := SortBy(all, MoreImportant());
    MoreImportantPreorder();
    SortPermutes(all, MoreImportant());
    SortSorted(all, MoreImportant());
    SplitMultiset(sorted, MemoryKept);
    PrefixSorted(sorted, MemoryKept, MoreImportant());
    PrefixPrecedesRest(sorted, MemoryKept, MoreImportant());
    forall a, b | a in sorted[..MemoryKept] && b in sorted[MemoryKept..] ensures a.importance >= b.importance {
      assert MoreImportant()(a, b);
    }
  }

  /** `Math.max(0, Math.min(10, priority))`. */
  function ClampPriority(priority: int): (r: int)
    ensures 0 <= r <= 10
    ensures 0 <= priority <= 10 ==> r == priority
    ensures priority < 0 ==> r == 0
    ensures priority > 10 ==> r == 10
  {
    if priority < 0 then 0 else if priority > 10 then 10 else priority
  }

  /** addGoal's record: active, no progress, the priority clamped to [0, 10]. */
  function NewGoal(id: nat, description: string, priority: int, deadline: Option<int>): (g: Goal)
    ensures g.status == Active && g.progress == 0.0 && 0 <= g.priority <= 10
    ensures g.id == id && g.description == description && g.deadline == deadline
  {
    Goal(id, description, ClampPriority(priority), Active, 0.0, deadline)
  }

  /** `agent.goals.find(g => g.id === goalId)`, as a position. */
  function GoalIndex(goals: seq<Goal>, goalId: nat): (r: Option<nat>)
    ensures r.Some? ==> r.value < |goals| && goals[r.value].id == goalId && forall j :: 0 <= j < r.value ==> goals[j].id != goalId
    ensures r.None? ==> forall j :: 0 <= j < |goals| ==> goals[j].id != goalId
  {
    if |goals| == 0 then None
    else if goals[0].id == goalId then Some(0)
    else match GoalIndex(goals[1..], goalId)
      case None => None
      case Some(i) => Some(i + 1)
  }

  /** updateGoalProgress's change: progress clamped to [0, 1]; full progress completes the goal. */
  function Progressed(g: Goal, progress: real): Goal {
    var p := Clamp01(progress);
    g.(progress := p, status := if p >= 1.0 then Completed else g.status)
  }

  /** Reporting progress once clamps it, completes the goal exactly at full progress, and leaves the rest. */
  lemma ProgressedClamps(g: Goal, progress: real)
    ensures var h := Progressed(g, progress);
      && 0.0 <= h.progress <= 1.0
      && (h.status == Completed <==> progress >= 1.0 || g.status == Completed)
      && (progress >= 1.0 ==> h.progress == 1.0)
      && h.id == g.id && h.description == g.description && h.priority == g.priority && h.deadline == g.deadline
  {
  }

  // ---------------------------------------------------------------------------
  // Responses
  // ---------------------------------------------------------------------------

  function TypeName(t: AgentType): string {
    match t
    case Assistant => "assistant"
    case Worker => "worker"
    case Moderator => "moderator"
    case Trader => "trader"
    case Custom => "custom"
  }

  function Greeting(a: Agent): string {
    "Hello! I'm " + a.name + ", your " + TypeName(a.atype) + ". How can I help you today?"
  }

  function HelpReply(a: Agent): string {
    "I can help you with: " + Join(a.skills, ", ") + ". What would you like to do?"
  }

  const FileReply := "I can help you manage files and folders. Would you like to create, read, or organize something?"
  const CreateReply := "I'd be happy to help you create something! What would you like to make?"
  const LearnReply := "I'm always learning! Tell me what you'd like me to know, and I'll remember it."

  function CreativeReply(message: string): string {
    "Interesting question! Let me think creatively about \"" + message
    + "\"... I believe we could approach this in several innovative ways. What aspect interests you most?"
  }

  function FormalReply(message: string): string {
    "Thank you for your inquiry regarding \"" + message
    + "\". I would be pleased to assist you with this matter. Could you please provide additional details?"
  }

  function DefaultReply(a: Agent, message: string): string {
    "I understand you're asking about \"" + message + "\". Based on my current knowledge and "
    + NatToString(|a.memory|) + " memories, I'd be happy to help. Could you elaborate on what specifically you'd like to know?"
  }

  /** The message mentions none of the keywords, in any case. */
  predicate NoKeyword(message: string) {
    var low := Lower(message);
    !Contains(low, "hello") && !Contains(low, "hi") && !Contains(low, "help") && !Contains(low, "file")
    && !Contains(low, "folder") && !Contains(low, "create") && !Contains(low, "make")
    && !Contains(low, "learn") && !Contains(low, "teach")
  }

  /** The keyword groups generateResponse tries, in the order it tries them. */
  const KeywordGroups: seq<seq<string>> := [["hello", "hi"], ["help"], ["file", "folder"], ["create", "make"], ["learn", "teach"]]

  /** `low` contains one of the group's keywords. */
  predicate Mentions(low: string, group: seq<string>) {
    exists k :: k in group && Contains(low, k)
  }

  function MentionsGroup(low: string): seq<string> -> bool {
    group => Mentions(low, group)
  }

  lemma MentionsPair(low: string, x: string, y: string)
    ensures Mentions(low, [x, y]) <==> Contains(low, x) || Contains(low, y)
  {
    if Contains(low, x) {
      assert x in [x, y];
    }
    if Contains(low, y) {
      assert y in [x, y];
    }
  }

  /** findIndex over five elements is the chain of the five tests. */
  lemma FindIndexOfFive<T>(s: seq<T>, keep: T -> bool)
    requires |s| == 5
    ensures FindIndex(s, keep) ==
      if keep(s[0]) then Some(0) else if keep(s[1]) then Some(1) else if keep(s[2]) then Some(2)
      else if keep(s[3]) then Some(3) else if keep(s[4]) then Some(4) else None
  {
    if !keep(s[0]) {
      if keep(s[1]) {
        FindIndexIs(s, keep, 1);
      } else if keep(s[2]) {
        FindIndexIs(s, keep, 2);
      } else if keep(s[3]) {
        FindIndexIs(s, keep, 3);
      } else if keep(s[4]) {
        FindIndexIs(s, keep, 4);
      }
    }
  }

  /** The first mentioned group is the first the chain of `includes` tests finds. */
  lemma FirstMentionedGroup(low: string)
    ensures FindIndex(KeywordGroups, MentionsGroup(low)) ==
      if Contains(low, "hello") || Contains(low, "hi") then Some(0)
      else if Contains(low, "help") then Some(1)
      else if Contains(low, "file") || Contains(low, "folder") then Some(2)
      else if Contains(low, "create") || Contains(low, "make") then Some(3)
      else if Contains(low, "learn") || Contains(low, "teach") then Some(4)
      else None
  {
    var g := KeywordGroups;
    FindIndexOfFive(g, MentionsGroup(low));
    MentionsPair(low, "hello", "hi");
    assert Mentions(low, g[1]) <==> Contains(low, "help") by {
      assert "help" in g[1];
    }
    MentionsPair(low, "file", "folder");
    MentionsPair(low, "create", "make");
    MentionsPair(low, "learn", "teach");
  }

  /** The reply of the keyword group at that position; with no group, the personality decides. */
  function GroupReply(a: Agent, message: string, group: Option<nat>): string {
    match group
    case Some(0) => Greeting(a)
    case Some(1) => HelpReply(a)
    case Some(2) => FileReply
    case Some(3) => CreateReply
    case Some(4) => LearnReply
    case _ =>
      if a.personality.creativity > 0.7 then CreativeReply(message)
      else if a.personality.formality > 0.7 then FormalReply(message)
      else DefaultReply(a, message)
  }

  /**
   * generateResponse: the first keyword group found in the lower-cased message decides the reply;
   * with none, creativity above 0.7, then formality above 0.7, then the default.
   */
  function GenerateResponse(a: Agent, message: string): (r: string)
    ensures NoKeyword(message) ==>
      r == if a.personality.creativity > 0.7 then CreativeReply(message)
           else if a.personality.formality > 0.7 then FormalReply(message)
           else DefaultReply(a, message)
  {
    var low := Lower(message);
    var group :=
      if Contains(low, "hello") || Contains(low, "hi") then Some(0)
      else if Contains(low, "help") then Some(1)
      else if Contains(low, "file") || Contains(low, "folder") then Some(2)
      else if Contains(low, "create") || Contains(low, "make") then Some(3)
      else if Contains(low, "learn") || Contains(low, "teach") then Some(4)
      else None;
    GroupReply(a, message, group)
  }

  /** The reply is that of the first keyword group any of whose keywords the lower-cased message contains. */
  lemma RepliesByFirstGroup(a: Agent, message: string)
    ensures GenerateResponse(a, message) == GroupReply(a, message, FindIndex(KeywordGroups, MentionsGroup(Lower(message))))
  {
    FirstMentionedGroup(Lower(message));
  }

  /** A keyword of group `i`, and none of an earlier group, in the lower-cased message picks group `i`'s reply. */
  lemma KeywordGroupDecides(a: Agent, message: string, i: nat, keyword: string)
    requires i < |KeywordGroups| && keyword in KeywordGroups[i] && Contains(Lower(message), keyword)
    requires forall j, k :: 0 <= j < i && k in KeywordGroups[j] ==> !Contains(Lower(message), k)
    ensures GenerateResponse(a, message) == GroupReply(a, message, Some(i))
  {
    FindIndexIs(KeywordGroups, MentionsGroup(Lower(message)), i);
    RepliesByFirstGroup(a, message);
  }

  /** Any message whose lower-cased text contains "hi" is greeted, whatever else it asks. */
  lemma HiGreets(a: Agent, message: string)
    requires Contains(Lower(message), "hi")
    ensures GenerateResponse(a, message) == Greeting(a)
  {
  }

  /** So a question with "this", "which", "think" or "nothing" in it is greeted: the keyword is a substring test. */
  lemma ThisGreets(a: Agent, message: string, word: string)
    requires word in ["this", "which", "think", "nothing", "ship"]
    requires Contains(Lower(message), word)
    ensures GenerateResponse(a, message) == Greeting(a)
  {
    var low := Lower(message);
    if word == "this" {
      assert word[1..3] == "hi";
      ContainsPiece(low, word, 1, "hi");
    } else if word == "think" {
      assert word[1..3] == "hi";
      ContainsPiece(low, word, 1, "hi");
    } else if word == "ship" {
      assert word[1..3] == "hi";
      ContainsPiece(low, word, 1, "hi");
    } else if word == "which" {
      assert word[1..3] == "hi";
      ContainsPiece(low, word, 1, "hi");
    } else {
      assert word[3..5] == "hi";
      ContainsPiece(low, word, 3, "hi");
    }
  }

  /** The greeting, help and fixed replies never depend on the personality. */
  lemma KeywordBeatsPersonality(a: Agent, message: string, p: Personality)
    requires !NoKeyword(message)
    ensures GenerateResponse(a.(personality := p), message) == GenerateResponse(a, message)
  {
    var b := a.(personality := p);
    var group := FindIndex(KeywordGroups, MentionsGroup(Lower(message)));
    FirstMentionedGroup(Lower(message));
    assert group.Some? && group.value < 5;
    GroupReplyIgnoresPersonality(a, b, message, group.value);
    RepliesByFirstGroup(a, message);
    RepliesByFirstGroup(b, message);
  }

  /** A keyword group's reply reads the agent's name, type and skills, never its personality. */
  lemma GroupReplyIgnoresPersonality(a: Agent, b: Agent, message: string, i: nat)
    requires i < 5 && a.name == b.name && a.atype == b.atype && a.skills == b.skills
    ensures GroupReply(a, message, Some(i)) == GroupReply(b, message, Some(i))
  {
    if i == 0 {
      assert Greeting(a) == Greeting(b);
    } else if i == 1 {
      assert HelpReply(a) == HelpReply(b);
    }
  }

  /**
   * A new agent with the default personality (creativity 0.7, formality 0.5, neither above the
   * threshold) answers a message without keywords with the default reply, counting no memories.
   */
  lemma NewAgentDefaultReply(id: AgentId, ownerId: string, name: string, t: AgentType, now: int, message: string)
    requires NoKeyword(message)
    ensures var a := NewAgent(id, ownerId, name, t, PersonalityPatch(None, None, None, None, None), now);
      GenerateResponse(a, message) == DefaultReply(a, message) && |a.memory| == 0
  {
    var a := NewAgent(id, ownerId, name, t, PersonalityPatch(None, None, None, None, None), now);
    assert a.personality.creativity == 0.7 && a.personality.formality == 0.5;
  }

  // ---------------------------------------------------------------------------
  // Memory search
  // ---------------------------------------------------------------------------

  /** `s.slice(0, end)`: a negative end counts from the back. */
  function SliceTo<T>(s: seq<T>, end: int): (r: seq<T>)
    ensures end >= 0 ==> r == s[..if end < |s| then end else |s|]
    ensures end < 0 ==> r == s[..if |s| + end > 0 then |s| + end else 0]
  {
    var e := if end < 0 then (if |s| + end > 0 then |s| + end else 0) else (if end < |s| then end else |s|);
    s[..e]
  }

  function Matches(query: string): Memory -> bool {
    (m: Memory) => Contains(Lower(m.content), Lower(query))
  }

  /** searchMemory without its ranking: the memories whose content includes the query, in any case, cut at `limit`. */
  function SearchMemory(memory: seq<Memory>, query: string, limit: int): (r: seq<Memory>)
    ensures forall i :: 0 <= i < |r| ==> r[i] in memory && Contains(Lower(r[i].content), Lower(query))
    ensures limit >= 0 ==> |r| <= limit
  {
    SliceTo(Filter(memory, Matches(query)), limit)
  }

  /** When no more memories match than the limit, every match is returned. */
  lemma SearchFindsAll(memory: seq<Memory>, query: string, limit: int, i: nat)
    requires |Filter(memory, Matches(query))| <= limit
    requires i < |memory| && Contains(Lower(memory[i].content), Lower(query))
    ensures memory[i] in SearchMemory(memory, query, limit)
  {
    assert Matches(query)(memory[i]);
  }

  /** An empty query matches every memory. */
  lemma EmptyQueryMatchesAll(memory: seq<Memory>)
    ensures SearchMemory(memory, "", |memory|) == memory
  {
    forall i | 0 <= i < |memory| ensures Matches("")(memory[i]) {
      assert StartsWith(Lower(memory[i].content), "");
    }
    FilterKeepsAll(memory, Matches(""));
  }

  // ---------------------------------------------------------------------------
  // The agent system
  // ---------------------------------------------------------------------------

  /** Every stored record sits under its own id. */
  ghost predicate KeyedById(agents: map<AgentId, Agent>) {
    forall k :: k in agents ==> agents[k].id == k
  }

  class AISystem {
    /** The store's 'agents' collection. */
    var agents: map<AgentId, Agent>
    /** The `activeAgents` cache. */
    var active: map<AgentId, Agent>
    /** The next fresh id. */
    var nextId: nat

    ghost predicate Valid()
      reads this
    {
      KeyedById(agents)
    }

    constructor(saved: map<AgentId, Agent>, firstFreeId: nat)
      requires KeyedById(saved)
      ensures Valid() && agents == saved && active == map[] && nextId == firstFreeId
    {
      agents := saved;
      active := map[];
      nextId := firstFreeId;
    }

    /** `uuidv4()`. */
    method FreshId() returns (id: nat)
      modifies this`nextId
      ensures id == old(nextId) && nextId == id + 1
    {
      id := nextId;
      nextId := nextId + 1;
    }

    /** getAgent: a copy of the stored record. */
    function GetAgent(agentId: AgentId): (r: Option<Agent>)
      reads this
      ensures r.Some? <==> agentId in agents
      ensures Valid() && r.Some? ==> r.value.id == agentId
    {
      if agentId in agents then Some(agents[agentId]) else None
    }

    /** updateAgent: the store and the cache both take the record. */
    method UpdateAgent(a: Agent)
      requires Valid()
      modifies this`agents, this`active
      ensures Valid() && agents == old(agents)[a.id := a] && active == old(active)[a.id := a]
    {
      agents := agents[a.id := a];
      active := active[a.id := a];
    }

    /** createAgent: the record is saved and cached, then an agent process is spawned for it. */
    method CreateAgent(pm: ProcessManager, ownerId: string, name: string, t: AgentType, patch: PersonalityPatch, now: int)
      returns (a: Agent)
      requires Valid() && pm.Valid()
      modifies this`agents, this`active, this`nextId, pm`table, pm`order, pm`stored, pm`calls, pm`nextPid
      ensures Valid() && pm.Valid()
      ensures a == NewAgent(old(nextId), ownerId, name, t, patch, now) && nextId == old(nextId) + 1
      ensures agents == old(agents)[a.id := a] && active == old(active)[a.id := a]
      ensures var p := NewProcess(old(pm.nextPid), "AI Agent: " + name, AgentProcess,
                                  MetadataPatch(None, None, Some(["ai.execute"]), Some(map["agentId" := Num(a.id)])), None, now);
        && pm.table == old(pm.table)[p.pid := p] && pm.order == old(pm.order) + [p.pid]
        && pm.stored == old(pm.stored)[p.pid := p] && pm.calls == old(pm.calls) + Emit(pm.handlers, "spawn", p)
        && pm.nextPid == old(pm.nextPid) + 1
    {
      var id := FreshId();
      a := NewAgent(id, ownerId, name, t, patch, now);
      UpdateAgent(a);
      var p := pm.Spawn("AI Agent: " + name, AgentProcess,
                        MetadataPatch(None, None, Some(["ai.execute"]), Some(map["agentId" := Num(a.id)])), None, now);
    }

    /** addMemory: a fresh copy gets the memory (and the trim), and is saved. */
    method AddMemory(agentId: AgentId, mtype: MemoryType, content: string, importance: real, now: int)
      returns (r: Result<Memory, AiError>)
      requires Valid()
      modifies this`agents, this`active, this`nextId
      ensures Valid()
      ensures agentId !in old(agents) ==>
        r == Err(AgentNotFound(agentId)) && agents == old(agents) && active == old(active) && nextId == old(nextId)
      ensures agentId in old(agents) ==>
        var m := Memory(old(nextId), mtype, content, importance, now, []);
        var a := old(agents)[agentId].(memory := Remembered(old(agents)[agentId].memory, m));
        r == Ok(m) && agents == old(agents)[agentId := a] && active == old(active)[agentId := a] && nextId == old(nextId) + 1
    {
      var found := GetAgent(agentId);
      if found.None? {
        return Err(AgentNotFound(agentId));
      }
      var id := FreshId();
      var m := Memory(id, mtype, content, importance, now, []);
      var agent := found.value.(memory := Remembered(found.value.memory, m));
      UpdateAgent(agent);
      r := Ok(m);
    }

    /**
     * chat: the copy read first is saved as thinking, the two conversation memories are saved by
     * addMemory, and the first copy, now idle, is saved last, so the memories are lost.
     */
    method Chat(agentId: AgentId, message: string, now: int) returns (r: Result<string, AiError>)
      requires Valid()
      modifies this`agents, this`active, this`nextId
      ensures Valid()
      ensures agentId !in old(agents) ==>
        r == Err(AgentNotFound(agentId)) && agents == old(agents) && active == old(active) && nextId == old(nextId)
      ensures agentId in old(agents) ==>
        var a := old(agents)[agentId].(status := Idle, lastActiveAt := now);
        && r == Ok(GenerateResponse(old(agents)[agentId].(status := Thinking), message))
        && agents == old(agents)[agentId := a] && active == old(active)[agentId := a]
        && nextId == old(nextId) + 2
    {
      var found := GetAgent(agentId);
      if found.None? {
        return Err(AgentNotFound(agentId));
      }
      var agent := found.value.(status := Thinking);
      UpdateAgent(agent);
      var asked := AddMemory(agentId, Conversation, "User: " + message, 0.7, now);
      var response := GenerateResponse(agent, message);
      var answered := AddMemory(agentId, Conversation, "Agent: " + response, 0.7, now);
      agent := agent.(status := Idle, lastActiveAt := now);
      UpdateAgent(agent);
      r := Ok(response);
    }

    /** addGoal: a fresh copy gets the new goal, and is saved. */
    method AddGoal(agentId: AgentId, description: string, priority: int, deadline: Option<int>)
      returns (r: Result<Goal, AiError>)
      requires Valid()
      modifies this`agents, this`active, this`nextId
      ensures Valid()
      ensures agentId !in old(agents) ==>
        r == Err(AgentNotFound(agentId)) && agents == old(agents) && active == old(active) && nextId == old(nextId)
      ensures agentId in old(agents) ==>
        var g := NewGoal(old(nextId), description, priority, deadline);
        var a := old(agents)[agentId].(goals := old(agents)[agentId].goals + [g]);
        r == Ok(g) && agents == old(agents)[agentId := a] && active == old(active)[agentId := a] && nextId == old(nextId) + 1
    {
      var found := GetAgent(agentId);
      if found.None? {
        return Err(AgentNotFound(agentId));
      }
      var id := FreshId();
      var g := NewGoal(id, description, priority, deadline);
      var agent := found.value.(goals := found.value.goals + [g]);
      UpdateAgent(agent);
      r := Ok(g);
    }

    /**
     * updateGoalProgress: the goal in a fresh copy is updated; a completed goal's memory is saved
     * by addMemory, but the copy saved after it does not hold it.
     */
    method UpdateGoalProgress(agentId: AgentId, goalId: nat, progress: real, now: int) returns (r: Outcome<AiError>)
      requires Valid()
      modifies this`agents, this`active, this`nextId
      ensures Valid()
      ensures agentId !in old(agents) ==>
        r == Fail(AgentNotFound(agentId)) && agents == old(agents) && active == old(active) && nextId == old(nextId)
      ensures agentId in old(agents) && GoalIndex(old(agents)[agentId].goals, goalId).None? ==>
        r == Fail(GoalNotFound(goalId)) && agents == old(agents) && active == old(active) && nextId == old(nextId)
      ensures agentId in old(agents) && GoalIndex(old(agents)[agentId].goals, goalId).Some? ==>
        var goals := old(agents)[agentId].goals;
        var i := GoalIndex(goals, goalId).value;
        var a := old(agents)[agentId].(goals := goals[i := Progressed(goals[i], progress)]);
        && r == Pass && agents == old(agents)[agentId := a] && active == old(active)[agentId := a]
        && nextId == old(nextId) + (if Clamp01(progress) >= 1.0 then 1 else 0)
    {
      var found := GetAgent(agentId);
      if found.None? {
        return Fail(AgentNotFound(agentId));
      }
      var agent := found.value;
      var index := GoalIndex(agent.goals, goalId);
      if index.None? {
        return Fail(GoalNotFound(goalId));
      }
      var goal := Progressed(agent.goals[index.value], progress);
      agent := agent.(goals := agent.goals[index.value := goal]);
      if goal.progress >= 1.0 {
        var noted := AddMemory(agentId, Task, "Completed goal: " + goal.description, 0.8, now);
      }
      UpdateAgent(agent);
      r := Pass;
    }

    /** addSkill: a skill the agent lacks is appended and saved, then remembered; a known skill changes nothing. */
    method AddSkill(agentId: AgentId, skill: string, now: int) returns (r: Outcome<AiError>)
      requires Valid()
      modifies this`agents, this`active, this`nextId
      ensures Valid()
      ensures agentId !in old(agents) ==>
        r == Fail(AgentNotFound(agentId)) && agents == old(agents) && active == old(active) && nextId == old(nextId)
      ensures agentId in old(agents) && skill in old(agents)[agentId].skills ==>
        r == Pass && agents == old(agents) && active == old(active) && nextId == old(nextId)
      ensures agentId in old(agents) && skill !in old(agents)[agentId].skills ==>
        var before := old(agents)[agentId];
        var m := Memory(old(nextId), Fact, "Learned new skill: " + skill, 0.6, now, []);
        var a := before.(skills := WithSkill(before.skills, skill), memory := Remembered(before.memory, m));
        && r == Pass && agents == old(agents)[agentId := a] && active == old(active)[agentId := a]
        && nextId == old(nextId) + 1
    {
      var found := GetAgent(agentId);
      if found.None? {
        return Fail(AgentNotFound(agentId));
      }
      var agent := found.value;
      if skill !in agent.skills {
        agent := agent.(skills := agent.skills + [skill]);
        UpdateAgent(agent);
        var noted := AddMemory(agentId, Fact, "Learned new skill: " + skill, 0.6, now);
      }
      r := Pass;
    }

    /** updatePersonality: a fresh copy gets the clamped update, and is saved. */
    method UpdatePersonality(agentId: AgentId, patch: PersonalityPatch) returns (r: Outcome<AiError>)
      requires Valid()
      modifies this`agents, this`active
      ensures Valid()
      ensures agentId !in old(agents) ==>
        r == Fail(AgentNotFound(agentId)) && agents == old(agents) && active == old(active)
      ensures agentId in old(agents) ==>
        var a := old(agents)[agentId].(personality := UpdatedPersonality(old(agents)[agentId].personality, patch));
        r == Pass && agents == old(agents)[agentId := a] && active == old(active)[agentId := a]
    {
      var found := GetAgent(agentId);
      if found.None? {
        return Fail(AgentNotFound(agentId));
      }
      var agent := found.value.(personality := UpdatedPersonality(found.value.personality, patch));
      UpdateAgent(agent);
      r := Pass;
    }
  }
}
