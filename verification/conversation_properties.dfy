/**
 * Properties of whole sequences of conversation-manager calls: the
 * integrity invariant survives any sequence, histories only grow by the
 * turns sent to them and in that order, experts are isolated from each
 * other, and a reset always yields the same single-message history.
 */
module ConversationProperties {
  import opened Wrappers
  import opened ExpertPrompts
  import opened Conversation

  /** One call on the manager. */
  datatype Operation =
    | SetExpert(expert: ExpertType, resetHistory: bool)
    | AddUserMessage(content: string, target: Option<ExpertType>)
    | AddAssistantMessage(content: string, target: Option<ExpertType>)

  function Apply(s: Session, op: Operation): Session {
    match op
    case SetExpert(e, reset) => Switched(s, e, reset)
    case AddUserMessage(c, t) => Appended(s, User, c, t)
    case AddAssistantMessage(c, t) => Appended(s, Assistant, c, t)
  }

  /** The state after performing `ops` in order, starting from `s`. */
  function Run(s: Session, ops: seq<Operation>): Session
    decreases |ops|
  {
    if ops == [] then s else Run(Apply(s, ops[0]), ops[1..])
  }

  /** Running two sequences one after the other is running their concatenation. */
  lemma {:induction false} RunConcat(s: Session, a: seq<Operation>, b: seq<Operation>)
    ensures Run(s, a + b) == Run(Run(s, a), b)
    decreases |a|
  {
    if a == [] {
      assert a + b == b;
    } else {
      assert (a + b)[0] == a[0];
      assert (a + b)[1..] == a[1..] + b;
      RunConcat(Apply(s, a[0]), a[1..], b);
    }
  }

  /** The integrity invariant holds after any sequence of calls. */
  lemma {:induction false} RunKeepsConsistent(s: Session, ops: seq<Operation>)
    requires Consistent(s.histories)
    ensures Consistent(Run(s, ops).histories)
    decreases |ops|
  {
    if ops != [] {
      RunKeepsConsistent(Apply(s, ops[0]), ops[1..]);
    }
  }

  /** From construction on, every history is well formed whatever is called. */
  lemma ReachableIsConsistent(initialExpert: ExpertType, ops: seq<Operation>)
    ensures Consistent(Run(Seeded(initialExpert), ops).histories)
  {
    RunKeepsConsistent(Seeded(initialExpert), ops);
  }

  /** The message `op` appends to expert `x`'s history in state `s`, if any. */
  function DeliveredBy(s: Session, op: Operation, x: ExpertType): seq<Message> {
    match op
    case SetExpert(_, _) => []
    case AddUserMessage(c, t) => if Resolve(s, t) == x then [Message(User, c)] else []
    case AddAssistantMessage(c, t) => if Resolve(s, t) == x then [Message(Assistant, c)] else []
  }

  /** The messages that `ops`, run from `s`, append to expert `x`'s history, in call order. */
  function Delivered(s: Session, ops: seq<Operation>, x: ExpertType): seq<Message>
    decreases |ops|
  {
    if ops == [] then [] else DeliveredBy(s, ops[0], x) + Delivered(Apply(s, ops[0]), ops[1..], x)
  }

  /** No call in `ops` resets expert `x`. */
  predicate NeverResets(ops: seq<Operation>, x: ExpertType) {
    forall i :: 0 <= i < |ops| ==> ops[i] != SetExpert(x, true)
  }

  /** One call that is not a reset of `x` extends `x`'s history by what it delivers to `x`. */
  lemma ApplyDelivers(s: Session, op: Operation, x: ExpertType)
    requires op != SetExpert(x, true)
    ensures Apply(s, op).histories[x] == s.histories[x] + DeliveredBy(s, op, x)
  {
    match op
    case SetExpert(e, reset) =>
      assert s.histories[x] + [] == s.histories[x];
    case AddUserMessage(c, t) =>
      if Resolve(s, t) != x {
        assert s.histories[x] + [] == s.histories[x];
      }
    case AddAssistantMessage(c, t) =>
      if Resolve(s, t) != x {
        assert s.histories[x] + [] == s.histories[x];
      }
  }

  lemma ConcatAssociative<T>(a: seq<T>, b: seq<T>, c: seq<T>)
    ensures (a + b) + c == a + (b + c)
  {
  }

  /** Dropping the first call keeps "never resets". */
  lemma NeverResetsTail(ops: seq<Operation>, x: ExpertType)
    requires ops != [] && NeverResets(ops, x)
    ensures ops[0] != SetExpert(x, true) && NeverResets(ops[1..], x)
  {
    forall i | 0 <= i < |ops[1..]| ensures ops[1..][i] != SetExpert(x, true) {
      assert ops[1..][i] == ops[i + 1];
    }
  }

  /**
   * Append order: without a reset of `x`, the history of `x` ends up as its
   * old history followed by exactly the turns sent to `x`, in the order sent.
   */
  lemma {:induction false} AppendOrder(s: Session, ops: seq<Operation>, x: ExpertType)
    requires NeverResets(ops, x)
    ensures Run(s, ops).histories[x] == s.histories[x] + Delivered(s, ops, x)
    decreases |ops|
  {
    if ops == [] {
      assert s.histories[x] + [] == s.histories[x];
    } else {
      var s', rest := Apply(s, ops[0]), ops[1..];
      var before, first, later := s.histories[x], DeliveredBy(s, ops[0], x), Delivered(s', rest, x);
      NeverResetsTail(ops, x);
      AppendOrder(s', rest, x);
      ApplyDelivers(s, ops[0], x);
      assert Run(s, ops).histories[x] == (before + first) + later;
      ConcatAssociative(before, first, later);
    }
  }

  /** Call `op` in state `s` writes to `x`'s history: a turn aimed at it, or its reset. */
  predicate Touches(s: Session, op: Operation, x: ExpertType) {
    match op
    case SetExpert(e, reset) => reset && e == x
    case AddUserMessage(_, t) => Resolve(s, t) == x
    case AddAssistantMessage(_, t) => Resolve(s, t) == x
  }

  /** No call in `ops`, run from `s`, writes to `x`'s history. */
  predicate LeavesAlone(s: Session, ops: seq<Operation>, x: ExpertType)
    decreases |ops|
  {
    ops == [] || (!Touches(s, ops[0], x) && LeavesAlone(Apply(s, ops[0]), ops[1..], x))
  }

  /**
   * Isolation: calls that are aimed at other experts, and switches that do
   * not reset `x`, leave the history of `x` exactly as it was.
   */
  lemma {:induction false} Isolation(s: Session, ops: seq<Operation>, x: ExpertType)
    requires LeavesAlone(s, ops, x)
    ensures Run(s, ops).histories[x] == s.histories[x]
    decreases |ops|
  {
    if ops != [] {
      Isolation(Apply(s, ops[0]), ops[1..], x);
    }
  }

  /**
   * Reset idempotence: resetting `e`, doing anything at all, then resetting
   * `e` again leaves `e` with the same single system message as the first reset.
   */
  lemma ResetIdempotent(s: Session, e: ExpertType, ops: seq<Operation>)
    ensures Run(s, [SetExpert(e, true)] + ops + [SetExpert(e, true)]).histories[e]
         == Run(s, [SetExpert(e, true)]).histories[e]
         == [SystemMessage(e)]
  {
    var first := [SetExpert(e, true)];
    RunConcat(s, first + ops, first);
    assert Run(Run(s, first + ops), first) == Apply(Run(s, first + ops), SetExpert(e, true));
  }

  /**
   * On a freshly seeded expert, a user turn "A" followed by an assistant
   * turn "B" gives exactly the system prompt, "A", "B", in that order.
   */
  lemma SeededTurnsInOrder(initialExpert: ExpertType, a: string, b: string)
    ensures Run(Seeded(initialExpert), [AddUserMessage(a, None), AddAssistantMessage(b, None)]).histories[initialExpert]
         == [SystemMessage(initialExpert), Message(User, a), Message(Assistant, b)]
  {
    var s0 := Seeded(initialExpert);
    var s1 := Apply(s0, AddUserMessage(a, None));
    var s2 := Apply(s1, AddAssistantMessage(b, None));
    var ops := [AddUserMessage(a, None), AddAssistantMessage(b, None)];
    assert Run(s0, ops) == Run(s1, ops[1..]);
    assert Run(s1, ops[1..]) == s2;
  }
}
