/**
 * Per-expert conversation state: one ordered message history per expert,
 * each seeded with that expert's system prompt, and a single field naming the
 * current expert.
 *
 * The value-level functions (Seeded, Switched, Appended, History) say what
 * each operation does to a Session; the class ConversationManager performs
 * the same operations in place and is proved against them.
 */
module Conversation {
  import opened Wrappers
  import opened ExpertPrompts

  /** The role tag of a message. */
  datatype Role = System | User | Assistant

  /** One entry of a transcript: `{"role": ..., "content": ...}`. */
  datatype Message = Message(role: Role, content: string)

  /** The message that opens every history of expert `e`. */
  function SystemMessage(e: ExpertType): Message {
    Message(System, SystemPromptForExpert(e))
  }

  /** An empty history for every expert, the dictionary the constructor starts from. */
  function EmptyHistories(): (m: map<ExpertType, seq<Message>>)
    ensures forall e :: e in m && m[e] == []
  {
    AllExpertsEnumerates();
    map e | e in AllExperts :: []
  }

  /** A history per expert; every expert has an entry, as the dictionary always does. */
  type HistoryMap = m: map<ExpertType, seq<Message>> | forall e :: e in m
    witness EmptyHistories()

  /**
   * The integrity invariant of one history: it starts with its own expert's
   * system message and no later message has the system role.
   */
  predicate WellFormedHistory(e: ExpertType, h: seq<Message>) {
    |h| >= 1 && h[0] == SystemMessage(e) &&
    forall i :: 1 <= i < |h| ==> h[i].role != System
  }

  /** Every history is well formed. */
  predicate Consistent(histories: HistoryMap) {
    forall e :: WellFormedHistory(e, histories[e])
  }

  /** The whole state of a conversation manager, as a value. */
  datatype Session = Session(current: ExpertType, histories: HistoryMap)

  /** The expert an operation acts on: the one given, else the current one. */
  function Resolve(s: Session, expert: Option<ExpertType>): ExpertType {
    match expert
    case Some(e) => e
    case None => s.current
  }

  /** The state right after construction. */
  function Seeded(initialExpert: ExpertType): (s: Session)
    ensures s.current == initialExpert
    ensures forall e :: s.histories[e] == [SystemMessage(e)]
    ensures Consistent(s.histories)
  {
    AllExpertsEnumerates();
    Session(initialExpert, map e | e in AllExperts :: [SystemMessage(e)])
  }

  /**
   * Switching expert: the given expert becomes current, and only when a reset is asked for is
   * that expert's history cut back to its system message.
   */
  function Switched(s: Session, expert: ExpertType, resetHistory: bool): (r: Session)
    ensures r.current == expert
    ensures resetHistory ==> r.histories[expert] == [SystemMessage(expert)]
    ensures forall e :: e != expert || !resetHistory ==> r.histories[e] == s.histories[e]
    ensures Consistent(s.histories) ==> Consistent(r.histories)
  {
    var histories := if resetHistory then s.histories[expert := [SystemMessage(expert)]] else s.histories;
    Session(expert, histories)
  }

  /**
   * Appending a user or assistant turn to the target expert's history: the
   * old history stays as its prefix, and nothing else changes.
   */
  function Appended(s: Session, role: Role, content: string, expert: Option<ExpertType>): (r: Session)
    requires role != System
    ensures r.current == s.current
    ensures var x := Resolve(s, expert);
      r.histories[x] == s.histories[x] + [Message(role, content)] &&
      forall e :: e != x ==> r.histories[e] == s.histories[e]
    ensures Consistent(s.histories) ==> Consistent(r.histories)
  {
    var x := Resolve(s, expert);
    Session(s.current, s.histories[x := s.histories[x] + [Message(role, content)]])
  }

  /** The history of the given expert, or of the current one. */
  function History(s: Session, expert: Option<ExpertType>): (h: seq<Message>)
    ensures Consistent(s.histories) ==> WellFormedHistory(Resolve(s, expert), h)
  {
    s.histories[Resolve(s, expert)]
  }

  /** Seeded is the only state whose histories each hold just their system message. */
  lemma SeededIsUnique(initialExpert: ExpertType, histories: HistoryMap)
    requires forall e :: histories[e] == [SystemMessage(e)]
    ensures Seeded(initialExpert) == Session(initialExpert, histories)
  {
    assert Seeded(initialExpert).histories == histories;
  }

  /**
   * The constructor's seeding loop: starting from an empty history per
   * expert, appends each expert's system message, in enumeration order.
   */
  method SeedHistories() returns (hs: HistoryMap)
    ensures forall e :: hs[e] == [SystemMessage(e)]
  {
    var m := EmptyHistories();
    for i := 0 to |AllExperts|
      invariant forall e :: e in m
      invariant forall e :: m[e] == if Position(e) < i then [SystemMessage(e)] else []
    {
      var expert := AllExperts[i];
      assert Position(expert) == i by { assert i == 0 || i == 1 || i == 2; }
      m := m[expert := m[expert] + [SystemMessage(expert)]];
    }
    hs := m;
  }

  /** The conversation manager: histories and current expert, updated in place. */
  class ConversationManager {
    var histories: HistoryMap
    var currentExpert: ExpertType

    ghost predicate Valid()
      reads this
    {
      Consistent(histories)
    }

    /** The abstract value of this manager. */
    ghost function State(): Session
      reads this
    {
      Session(currentExpert, histories)
    }

    /** Every history holds just its system message; the given expert is current. */
    constructor (initialExpert: ExpertType)
      ensures Valid()
      ensures State() == Seeded(initialExpert)
    {
      var hs := SeedHistories();
      SeededIsUnique(initialExpert, hs);
      histories := hs;
      currentExpert := initialExpert;
    }

    method SetExpert(expert: ExpertType, resetHistory: bool)
      requires Valid()
      modifies this
      ensures Valid()
      ensures State() == Switched(old(State()), expert, resetHistory)
    {
      currentExpert := expert;
      if resetHistory {
        histories := histories[expert := [SystemMessage(expert)]];
      }
    }

    function GetCurrentExpert(): (e: ExpertType)
      reads this
      ensures e == State().current
    {
      currentExpert
    }

    function GetHistory(expert: Option<ExpertType>): (h: seq<Message>)
      reads this
      requires Valid()
      ensures h == History(State(), expert)
      ensures WellFormedHistory(Resolve(State(), expert), h)
    {
      var target := if expert.Some? then expert.value else currentExpert;
      histories[target]
    }

    method AddUserMessage(content: string, expert: Option<ExpertType>)
      requires Valid()
      modifies this
      ensures Valid()
      ensures State() == Appended(old(State()), User, content, expert)
    {
      var target := if expert.Some? then expert.value else currentExpert;
      histories := histories[target := histories[target] + [Message(User, content)]];
    }

    method AddAssistantMessage(content: string, expert: Option<ExpertType>)
      requires Valid()
      modifies this
      ensures Valid()
      ensures State() == Appended(old(State()), Assistant, content, expert)
    {
      var target := if expert.Some? then expert.value else currentExpert;
      histories := histories[target := histories[target] + [Message(Assistant, content)]];
    }
  }
}
